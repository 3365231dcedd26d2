/**
 * The request handler and its in-memory event store. The store is a list
 * of events, newest first; a POST that parses and analyses cleanly puts one
 * event in front of it, a GET returns it whole, anything else is refused.
 * Reading the body and JSON.parse are given as their outcome, the clock as
 * a timestamp parameter.
 */
module Webhook {
  import opened Wrappers
  import opened JsonValue
  import opened Extraction
  import opened Analysis

  datatype Event = Event(structuredData: Json, analysis: Analysis, timestamp: int)

  /** What reading the request body and JSON.parse gave. */
  datatype RequestBody =
    | ReadFailed(message: string)    // the stream reported an error
    | Unparsable(message: string)    // JSON.parse threw a SyntaxError
    | Parsed(payload: Json)

  datatype ResponseBody =
    | Acknowledged                   // {"success": true}
    | Error(message: string)         // {"success": false, "error": message}
    | EventList(events: seq<Event>)  // the stored events as a JSON array
    | PlainText(text: string)

  datatype Response = Response(status: int, body: ResponseBody)

  const NotFoundNote := "structuredData not found"

  /** The object stored in place of missing structured data. */
  function Wrapper(payload: Json): Json {
    JObj(map["note" := JStr(NotFoundNote), "raw" := payload])
  }

  /** What every stored event satisfies. */
  predicate WellFormed(e: Event) {
    && Truthy(e.structuredData)
    && (e.analysis.successEvaluation <==> !TruthyOpt(Prop(e.structuredData, "note")))
    && |e.analysis.keyPoints| == (if e.analysis.successEvaluation then 3 else 2)
  }

  /**
   * The event a parsed payload becomes, or the message of the exception the
   * try block catches (a null payload, or an unprintable field in the summary).
   */
  function EventFor(payload: Json, now: int): (r: Result<Event, string>)
    ensures r.Success? ==> WellFormed(r.value) && r.value.timestamp == now
    ensures r.Success? ==>
      payload != JNull && BuildAnalysis(ExtractStructuredData(payload).value, payload) == Success(r.value.analysis)
    ensures r.Failure? <==> payload == JNull || var sd := ExtractStructuredData(payload).value;
      !UsesFallback(sd) && HasUnprintableField(sd)
  {
    match ExtractStructuredData(payload)
    case Failure(e) => Failure(e)
    case Success(sd) =>
      match BuildAnalysis(sd, payload)
      case Failure(e) => Failure(e)
      case Success(analysis) =>
        if Truthy(sd) then Success(Event(sd, analysis, now))
        else Success(Event(Wrapper(payload), analysis, now))
  }

  /** The outcome of the POST branch as a whole: the new event, or the message returned with 400. */
  function PostOutcome(body: RequestBody, now: int): Result<Event, string> {
    match body
    case ReadFailed(m) => Failure(m)
    case Unparsable(m) => Failure(m)
    case Parsed(payload) => EventFor(payload, now)
  }

  /** A stored event keeps the extracted value when it is truthy, and the wrapper (with success false) otherwise. */
  lemma StoredStructuredData(payload: Json, now: int)
    requires payload != JNull && EventFor(payload, now).Success?
    ensures var sd := ExtractStructuredData(payload).value;
      var e := EventFor(payload, now).value;
      && (Truthy(sd) ==> e.structuredData == sd)
      && (!Truthy(sd) ==> e.structuredData == Wrapper(payload) && !e.analysis.successEvaluation
                          && e.analysis == Fallback)
  {
  }

  /** The converse of "wrapper used implies failure" does not hold: genuine data with a truthy note is kept, yet not a success. */
  lemma NoteWithoutWrapper(now: int)
    ensures var payload := JObj(map["structuredData" := JObj(map["note" := JStr("x")])]);
      && EventFor(payload, now).Success?
      && EventFor(payload, now).value.structuredData == JObj(map["note" := JStr("x")])
      && EventFor(payload, now).value.structuredData != Wrapper(payload)
      && !EventFor(payload, now).value.analysis.successEvaluation
  {
    var sd := JObj(map["note" := JStr("x")]);
    var payload := JObj(map["structuredData" := sd]);
    assert Prop(payload, "structuredData") == Some(sd);
    assert ExtractStructuredData(payload) == Success(sd);
    assert UsesFallback(sd) by { assert Prop(sd, "note") == Some(JStr("x")); }
    assert EventFor(payload, now) == Success(Event(sd, Fallback, now));
    assert "raw" in Wrapper(payload).fields && "raw" !in sd.fields;
  }

  class EventStore {
    var events: seq<Event>

    ghost predicate Valid()
      reads this
    {
      forall i | 0 <= i < |events| :: WellFormed(events[i])
    }

    /** The store starts empty. */
    constructor ()
      ensures Valid() && events == []
    {
      events := [];
    }

    /** The POST branch: append the new event at the front, or answer 400 and change nothing. */
    method Post(body: RequestBody, now: int) returns (resp: Response)
      requires Valid()
      modifies this
      ensures Valid()
      ensures PostOutcome(body, now).Success? ==>
        resp == Response(200, Acknowledged) && events == [PostOutcome(body, now).value] + old(events)
      ensures PostOutcome(body, now).Failure? ==>
        resp == Response(400, Error(PostOutcome(body, now).error)) && events == old(events)
    {
      var payload: Json;
      match body {
        case ReadFailed(m) => return Response(400, Error(m));
        case Unparsable(m) => return Response(400, Error(m));
        case Parsed(p) => payload := p;
      }
      var extracted := ExtractStructuredData(payload);
      if extracted.Failure? {
        return Response(400, Error(extracted.error));
      }
      var structuredData := extracted.value;
      var built := BuildAnalysis(structuredData, payload);
      if built.Failure? {
        return Response(400, Error(built.error));
      }
      var analysis := built.value;
      if Truthy(structuredData) {
        events := [Event(structuredData, analysis, now)] + events;
      } else {
        events := [Event(Wrapper(payload), analysis, now)] + events;
      }
      resp := Response(200, Acknowledged);
    }

    /** The GET branch: every stored event, newest first. */
    method Get() returns (resp: Response)
      ensures resp == Response(200, EventList(events))
    {
      resp := Response(200, EventList(events));
    }

    /** Dispatch on the request method. */
    method Handle(httpMethod: string, body: RequestBody, now: int) returns (resp: Response)
      requires Valid()
      modifies this
      ensures Valid()
      ensures httpMethod == "POST" && PostOutcome(body, now).Success? ==>
        resp == Response(200, Acknowledged) && events == [PostOutcome(body, now).value] + old(events)
      ensures httpMethod == "POST" && PostOutcome(body, now).Failure? ==>
        resp == Response(400, Error(PostOutcome(body, now).error)) && events == old(events)
      ensures httpMethod == "GET" ==> resp == Response(200, EventList(old(events))) && events == old(events)
      ensures httpMethod != "POST" && httpMethod != "GET" ==>
        resp == Response(405, PlainText("Method Not Allowed")) && events == old(events)
    {
      if httpMethod == "POST" {
        resp := Post(body, now);
        return;
      }
      if httpMethod == "GET" {
        resp := Get();
        return;
      }
      resp := Response(405, PlainText("Method Not Allowed"));
    }
  }

  /** A fresh store answers GET with [], and after POSTs of a then b with [b, a]. */
  method NewestFirst(a: Json, b: Json, t1: int, t2: int) returns (before: Response, after: Response)
    requires EventFor(a, t1).Success? && EventFor(b, t2).Success?
    ensures before == Response(200, EventList([]))
    ensures after == Response(200, EventList([EventFor(b, t2).value, EventFor(a, t1).value]))
  {
    var store := new EventStore();
    before := store.Handle("GET", Parsed(JNull), 0);
    var r1 := store.Handle("POST", Parsed(a), t1);
    var r2 := store.Handle("POST", Parsed(b), t2);
    after := store.Handle("GET", Parsed(JNull), 0);
    assert PostOutcome(Parsed(a), t1) == EventFor(a, t1);
    assert PostOutcome(Parsed(b), t2) == EventFor(b, t2);
    assert [EventFor(b, t2).value] + ([EventFor(a, t1).value] + []) == [EventFor(b, t2).value, EventFor(a, t1).value];
  }
}

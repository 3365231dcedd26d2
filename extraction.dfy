/**
 * Locating the structured data in a webhook payload: the first truthy value
 * among payload.structuredData, payload.analysis, payload.data?.structuredData
 * and payload.event?.structuredData, or null.
 */
module Extraction {
  import opened Wrappers
  import opened JsonValue

  /** The message of the TypeError raised by reading `structuredData` of a null payload (V8 wording). */
  const NullPayloadError := "Cannot read properties of null (reading 'structuredData')"

  /** The four probed locations, in priority order. */
  function Probes(payload: Json): (ps: seq<Option<Json>>)
    requires payload != JNull
    ensures |ps| == 4
  {
    [ Prop(payload, "structuredData"),
      Prop(payload, "analysis"),
      OptProp(Prop(payload, "data"), "structuredData"),
      OptProp(Prop(payload, "event"), "structuredData") ]
  }

  /** Probe i is truthy and no earlier probe is. */
  predicate IsFirstTruthy(ps: seq<Option<Json>>, i: int) {
    0 <= i < |ps| && TruthyOpt(ps[i]) && forall j | 0 <= j < i :: !TruthyOpt(ps[j])
  }

  /** The `||` chain of the handler; a null payload makes its first read throw. */
  function ExtractStructuredData(payload: Json): (r: Result<Json, string>)
    ensures r.Failure? <==> payload == JNull
    ensures r.Failure? ==> r.error == NullPayloadError
    ensures r.Success? ==> r.value == JNull || Truthy(r.value)
  {
    if payload == JNull then Failure(NullPayloadError)
    else Success(
      Or(Prop(payload, "structuredData"),
      Or(Prop(payload, "analysis"),
      Or(OptProp(Prop(payload, "data"), "structuredData"),
      Or(OptProp(Prop(payload, "event"), "structuredData"),
      JNull)))))
  }

  /**
   * The chain picks the first truthy probe, and yields null exactly when
   * every probe is undefined or falsy.
   */
  lemma ExtractPicksFirstTruthy(payload: Json)
    requires payload != JNull
    ensures var r := ExtractStructuredData(payload).value;
      (r == JNull <==> forall i | 0 <= i < 4 :: !TruthyOpt(Probes(payload)[i]))
      && (r != JNull ==> exists i :: IsFirstTruthy(Probes(payload), i) && Probes(payload)[i] == Some(r))
  {
    var ps := Probes(payload);
    if TruthyOpt(ps[0]) {
      assert IsFirstTruthy(ps, 0);
    } else if TruthyOpt(ps[1]) {
      assert IsFirstTruthy(ps, 1);
    } else if TruthyOpt(ps[2]) {
      assert IsFirstTruthy(ps, 2);
    } else if TruthyOpt(ps[3]) {
      assert IsFirstTruthy(ps, 3);
    }
  }

  /** A `data` or `event` member that is missing or not an object contributes nothing. */
  lemma NonObjectContainerAbsent(payload: Json)
    requires payload != JNull
    ensures !(Prop(payload, "data").Some? && Prop(payload, "data").value.JObj?) ==> Probes(payload)[2] == None
    ensures !(Prop(payload, "event").Some? && Prop(payload, "event").value.JObj?) ==> Probes(payload)[3] == None
  {
  }

  /** Truthiness, not presence, decides: a falsy structuredData gives way to a truthy analysis. */
  lemma FalsyStructuredDataSkipped(sd: Json, analysis: Json)
    requires !Truthy(sd) && Truthy(analysis)
    ensures ExtractStructuredData(JObj(map["structuredData" := sd, "analysis" := analysis])) == Success(analysis)
  {
  }
}

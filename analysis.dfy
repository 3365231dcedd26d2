/**
 * buildAnalysis: a summary sentence, a success flag and fixed key points
 * derived from the extracted structured data.
 */
module Analysis {
  import opened Wrappers
  import opened JsonValue
  import opened JsString

  datatype Analysis = Analysis(summary: string, successEvaluation: bool, keyPoints: seq<string>)

  const FallbackSummary := "No structured data found. Stored raw payload for debugging."
  const FallbackKeyPoints := [
    "Payload received but missing structuredData.",
    "Raw payload stored in events for later inspection."
  ]
  const FoundKeyPoints := [
    "Training request captured with timeline and format.",
    "Team size and expertise level clarified if available.",
    "Contact details and next steps prepared for follow-up."
  ]

  /** The analysis given when there is nothing to interpret. */
  const Fallback := Analysis(FallbackSummary, false, FallbackKeyPoints)

  /** `!structuredData || structuredData.note` */
  predicate UsesFallback(sd: Json) {
    !Truthy(sd) || TruthyOpt(Prop(sd, "note"))
  }

  /** The sentence of the normal branch, with its five slots filled in. */
  function Template(name: string, topic: string, teamSize: string, format: string, timeline: string): string {
    name + " requested training on '" + topic + "' for a team of " + teamSize
      + ", to be conducted in " + format + ", scheduled " + timeline + "."
  }

  /** `structuredData.<key> || default` */
  function FieldOr(sd: Json, key: string, default: string): Json
    requires sd != JNull
  {
    Or(Prop(sd, key), JStr(default))
  }

  /** Field `key` is present and truthy but converting it to text throws. */
  predicate UnprintableField(sd: Json, key: string)
    requires sd != JNull
  {
    TruthyOpt(Prop(sd, key)) && Unprintable(Prop(sd, key).value)
  }

  predicate HasUnprintableField(sd: Json)
    requires sd != JNull
  {
    || UnprintableField(sd, "name")
    || UnprintableField(sd, "topic")
    || UnprintableField(sd, "team_size")
    || UnprintableField(sd, "training_format")
    || UnprintableField(sd, "training_timeline")
  }

  /**
   * buildAnalysis(structuredData, rawPayload). The raw payload is never read.
   * Failure carries the message of the TypeError the template literal throws.
   */
  function BuildAnalysis(sd: Json, rawPayload: Json): (r: Result<Analysis, string>)
    ensures UsesFallback(sd) ==> r == Success(Fallback)
    ensures r.Success? ==> (r.value.successEvaluation <==> !UsesFallback(sd))
    ensures r.Success? && !UsesFallback(sd) ==> r.value.keyPoints == FoundKeyPoints
    ensures r.Failure? <==> !UsesFallback(sd) && HasUnprintableField(sd)
    ensures r.Failure? ==> r.error == ToPrimitiveError
  {
    if UsesFallback(sd) then Success(Fallback)
    else
      var name := FieldOr(sd, "name", "Unknown user");
      var topic := FieldOr(sd, "topic", "Unspecified topic");
      var teamSize := FieldOr(sd, "team_size", "N/A");
      var format := FieldOr(sd, "training_format", "Unspecified format");
      var timeline := FieldOr(sd, "training_timeline", "No timeline provided");
      ToStrFailsIff(name);
      ToStrFailsIff(topic);
      ToStrFailsIff(teamSize);
      ToStrFailsIff(format);
      ToStrFailsIff(timeline);
      match (ToStr(name), ToStr(topic), ToStr(teamSize), ToStr(format), ToStr(timeline))
      case (Some(n), Some(t), Some(s), Some(f), Some(l)) =>
        Success(Analysis(Template(n, t, s, f, l), true, FoundKeyPoints))
      case _ => Failure(ToPrimitiveError)
  }

  /** `text` is what the summary shows for field `key`: the field's own text when truthy, else the default. */
  predicate Shows(sd: Json, key: string, default: string, text: string)
    requires sd != JNull
  {
    if TruthyOpt(Prop(sd, key)) then ToStr(Prop(sd, key).value) == Some(text) else text == default
  }

  /** In the normal branch each falsy field is replaced by its default inside the fixed template. */
  lemma SummaryFillsDefaults(sd: Json, raw: Json, name: string, topic: string, teamSize: string, format: string, timeline: string)
    requires !UsesFallback(sd)
    requires Shows(sd, "name", "Unknown user", name)
    requires Shows(sd, "topic", "Unspecified topic", topic)
    requires Shows(sd, "team_size", "N/A", teamSize)
    requires Shows(sd, "training_format", "Unspecified format", format)
    requires Shows(sd, "training_timeline", "No timeline provided", timeline)
    ensures BuildAnalysis(sd, raw) == Success(Analysis(Template(name, topic, teamSize, format, timeline), true, FoundKeyPoints))
  {
  }

  /** The result never depends on the raw payload. */
  lemma RawPayloadIgnored(sd: Json, raw1: Json, raw2: Json)
    ensures BuildAnalysis(sd, raw1) == BuildAnalysis(sd, raw2)
  {
  }

  /** A null input and an input with a truthy note both get the two-point fallback. */
  lemma FallbackExamples(raw: Json)
    ensures BuildAnalysis(JNull, raw) == Success(Analysis(FallbackSummary, false, FallbackKeyPoints))
    ensures BuildAnalysis(JObj(map["note" := JStr("x")]), raw) == Success(Fallback)
  {
  }

  /** The template filled with the values of the fully specified request below. */
  lemma AnnSentence()
    ensures Template("Ann", "Rust", "5", "remote", "next week")
      == "Ann requested training on 'Rust' for a team of 5, to be conducted in remote, scheduled next week."
  {
    AnnSentencePart1(); AnnSentencePart2(); AnnSentencePart3();
  }

  // The sentence proofs go a few literal concatenations at a time.
  lemma AnnSentencePart1()
    ensures "Ann" + " requested training on '" + "Rust" + "' for a team of "
      == "Ann requested training on 'Rust' for a team of "
  {
    assert "Ann" + " requested training on '" == "Ann requested training on '";
    assert "Ann requested training on '" + "Rust" == "Ann requested training on 'Rust";
    assert "Ann requested training on 'Rust" + "' for a team of " == "Ann requested training on 'Rust' for a team of ";
  }

  lemma AnnSentencePart2()
    ensures "Ann requested training on 'Rust' for a team of " + "5" + ", to be conducted in " + "remote"
      == "Ann requested training on 'Rust' for a team of 5, to be conducted in remote"
  {
  }

  lemma AnnSentencePart3()
    ensures "Ann requested training on 'Rust' for a team of 5, to be conducted in remote" + ", scheduled " + "next week" + "."
      == "Ann requested training on 'Rust' for a team of 5, to be conducted in remote, scheduled next week."
  {
  }

  /** A fully filled request. */
  lemma AnnExample(raw: Json)
    ensures BuildAnalysis(JObj(map[
        "name" := JStr("Ann"), "topic" := JStr("Rust"), "team_size" := JNum(5),
        "training_format" := JStr("remote"), "training_timeline" := JStr("next week")]), raw)
      == Success(Analysis(
        "Ann requested training on 'Rust' for a team of 5, to be conducted in remote, scheduled next week.",
        true, FoundKeyPoints))
  {
    var sd := JObj(map[
        "name" := JStr("Ann"), "topic" := JStr("Rust"), "team_size" := JNum(5),
        "training_format" := JStr("remote"), "training_timeline" := JStr("next week")]);
    assert Decimal(5) == "5";
    SummaryFillsDefaults(sd, raw, "Ann", "Rust", "5", "remote", "next week");
    AnnSentence();
  }

  /** The template filled with every default except the topic. */
  lemma TopicOnlySentence()
    ensures Template("Unknown user", "X", "N/A", "Unspecified format", "No timeline provided")
      == "Unknown user requested training on 'X' for a team of N/A, to be conducted in Unspecified format, scheduled No timeline provided."
  {
    TopicOnlySentencePart1(); TopicOnlySentencePart2(); TopicOnlySentencePart3();
  }

  // The sentence proofs go a few literal concatenations at a time.
  lemma TopicOnlySentencePart1()
    ensures "Unknown user" + " requested training on '" + "X" + "' for a team of "
      == "Unknown user requested training on 'X' for a team of "
  {
  }

  lemma TopicOnlySentencePart2()
    ensures "Unknown user requested training on 'X' for a team of " + "N/A" + ", to be conducted in " + "Unspecified format"
      == "Unknown user requested training on 'X' for a team of N/A, to be conducted in Unspecified format"
  {
  }

  lemma TopicOnlySentencePart3()
    ensures "Unknown user requested training on 'X' for a team of N/A, to be conducted in Unspecified format" + ", scheduled " + "No timeline provided" + "."
      == "Unknown user requested training on 'X' for a team of N/A, to be conducted in Unspecified format, scheduled No timeline provided."
  {
  }

  /** Only a topic: every other slot shows its default. */
  lemma TopicOnlyExample(raw: Json)
    ensures BuildAnalysis(JObj(map["topic" := JStr("X")]), raw)
      == Success(Analysis(
        "Unknown user requested training on 'X' for a team of N/A, to be conducted in Unspecified format, scheduled No timeline provided.",
        true, FoundKeyPoints))
  {
    SummaryFillsDefaults(JObj(map["topic" := JStr("X")]), raw,
      "Unknown user", "X", "N/A", "Unspecified format", "No timeline provided");
    TopicOnlySentence();
  }

  /** A truthy field holding an object with its own "toString" key makes the template literal throw. */
  lemma UnprintableNameThrows(raw: Json)
    ensures BuildAnalysis(JObj(map["name" := JObj(map["toString" := JNum(1)])]), raw) == Failure(ToPrimitiveError)
  {
    assert UnprintableField(JObj(map["name" := JObj(map["toString" := JNum(1)])]), "name");
  }
}

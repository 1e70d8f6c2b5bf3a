/** The records of models.py: the two kinds of script step, the history entry
    and the script. Construction from keyword fields stands for the validation a
    record performs: a wrong `type` tag, a missing field or an `int` field
    holding something else is an error naming the fields that failed. */
module Models {
  import opened Wrappers
  import opened Json

  /** SendInteraction / ExpectInteraction as one closed variant. */
  datatype Step =
    | Send(atMs: int, payload: Json)
    | Expect(timeoutMs: int, pattern: Json)

  /** InteractionLog.direction: "sent" or "received". */
  datatype Direction = Sent | Received

  /** InteractionLog. Timestamps are integer milliseconds of the event-loop clock. */
  datatype LogEntry = LogEntry(timestamp: int, direction: Direction, payload: Json)

  /** Script; `items` defaults to the empty list. */
  datatype Script = Script(items: seq<Step> := [])

  /** The text that stands for a direction. */
  function DirectionName(d: Direction): (name: string)
    ensures name == "sent" || name == "received"
    ensures d.Sent? <==> name == "sent"
  {
    match d
    case Sent => "sent"
    case Received => "received"
  }

  /** The `Literal["sent", "received"]` check on InteractionLog.direction. */
  function ParseDirection(name: string): (d: Option<Direction>)
    ensures d.Some? <==> name == "sent" || name == "received"
  {
    if name == "sent" then Some(Sent)
    else if name == "received" then Some(Received)
    else None
  }

  /** Each direction survives being written out and read back, and no other text
      is a direction. */
  lemma DirectionRoundTrip(d: Direction, name: string)
    ensures ParseDirection(DirectionName(d)) == Some(d)
    ensures ParseDirection(name).Some? ==> DirectionName(ParseDirection(name).value) == name
  {
  }

  /** The names of the fields of a record that fail validation, in declaration
      order: the tag must be the given literal, the integer field must hold an
      integer and the value field must be present. */
  function FieldErrors(fields: map<string, Json>, tag: string, intField: string, anyField: string): (bad: seq<string>)
    ensures bad == [] <==>
      && Get(fields, "type") == Some(JStr(tag))
      && intField in fields && fields[intField].JInt?
      && anyField in fields
  {
    (if Get(fields, "type") == Some(JStr(tag)) then [] else ["type"])
    + (if intField in fields && fields[intField].JInt? then [] else [intField])
    + (if anyField in fields then [] else [anyField])
  }

  /** SendInteraction(**fields). Keys the record does not declare are ignored. */
  function NewSend(fields: map<string, Json>): (r: Result<Step, seq<string>>)
    ensures r.Ok? <==>
      Get(fields, "type") == Some(JStr("send")) && "at_ms" in fields && fields["at_ms"].JInt? && "payload" in fields
    ensures r.Ok? ==> r.value == Send(fields["at_ms"].i, fields["payload"])
    ensures r.Err? ==>
      && r.error != []
      && (forall f :: f in r.error ==> f in ["type", "at_ms", "payload"])
      && ("type" in r.error <==> Get(fields, "type") != Some(JStr("send")))
      && ("at_ms" in r.error <==> !("at_ms" in fields && fields["at_ms"].JInt?))
      && ("payload" in r.error <==> "payload" !in fields)
  {
    var bad := FieldErrors(fields, "send", "at_ms", "payload");
    if bad == [] then Ok(Send(fields["at_ms"].i, fields["payload"])) else Err(bad)
  }

  /** ExpectInteraction(**fields). `timeout_ms` is any integer, negative ones included. */
  function NewExpect(fields: map<string, Json>): (r: Result<Step, seq<string>>)
    ensures r.Ok? <==>
      Get(fields, "type") == Some(JStr("expect")) && "timeout_ms" in fields && fields["timeout_ms"].JInt? && "match" in fields
    ensures r.Ok? ==> r.value == Expect(fields["timeout_ms"].i, fields["match"])
    ensures r.Err? ==>
      && r.error != []
      && (forall f :: f in r.error ==> f in ["type", "timeout_ms", "match"])
      && ("type" in r.error <==> Get(fields, "type") != Some(JStr("expect")))
      && ("timeout_ms" in r.error <==> !("timeout_ms" in fields && fields["timeout_ms"].JInt?))
      && ("match" in r.error <==> "match" !in fields)
  {
    var bad := FieldErrors(fields, "expect", "timeout_ms", "match");
    if bad == [] then Ok(Expect(fields["timeout_ms"].i, fields["match"])) else Err(bad)
  }

  /** A step's fields as a mapping (`model_dump()`). */
  function Dump(step: Step): (fields: map<string, Json>)
    ensures "type" in fields && fields["type"].JStr?
  {
    match step
    case Send(atMs, payload) =>
      map["type" := JStr("send"), "at_ms" := JInt(atMs), "payload" := payload]
    case Expect(timeoutMs, pattern) =>
      map["type" := JStr("expect"), "timeout_ms" := JInt(timeoutMs), "match" := pattern]
  }

  /** Dumping a step and constructing the record of its kind from the dump gives
      the step back. */
  lemma DumpRoundTrip(step: Step)
    ensures step.Send? ==> NewSend(Dump(step)) == Ok(step)
    ensures step.Expect? ==> NewExpect(Dump(step)) == Ok(step)
  {
  }

  /** The cases of tests/test_models.py: a wrong tag or missing fields are
      rejected, and a negative timeout is kept as it is. */
  lemma ModelExamples()
    ensures NewSend(map["type" := JStr("send"), "at_ms" := JInt(100), "payload" := JObject(map["foo" := JStr("bar")])])
            == Ok(Send(100, JObject(map["foo" := JStr("bar")])))
    ensures NewSend(map["type" := JStr("invalid"), "at_ms" := JInt(100), "payload" := JObject(map[])]) == Err(["type"])
    ensures NewSend(map["type" := JStr("send")]) == Err(["at_ms", "payload"])
    ensures NewExpect(map["type" := JStr("expect"), "timeout_ms" := JInt(-10), "match" := JObject(map[])])
            == Ok(Expect(-10, JObject(map[])))
  {
    var wrongTag := map["type" := JStr("invalid"), "at_ms" := JInt(100), "payload" := JObject(map[])];
    assert "invalid"[0] != "send"[0];
    assert FieldErrors(wrongTag, "send", "at_ms", "payload") == ["type"];
    var tagOnly := map["type" := JStr("send")];
    assert tagOnly.Keys == {"type"};
    assert FieldErrors(tagOnly, "send", "at_ms", "payload") == [] + ["at_ms"] + ["payload"];
    assert [] + ["at_ms"] + ["payload"] == ["at_ms", "payload"];
  }
}

/** `load_script` of loader.py, from the already-parsed document on: the loop
    that turns each entry of the document's `script` list into a step according
    to its `type` field, stopping at the first entry it cannot turn into one. */
module Loader {
  import opened Wrappers
  import opened Json
  import opened Models

  datatype LoadError =
    | NotAMapping                       // `.get` called on a value that is not a mapping
    | NotIterable                       // iterating a value that is not a collection
    | UnknownType(found: Option<Json>)  // "Unknown interaction type: <found>"
    | Invalid(fields: seq<string>)      // the record rejected these fields

  /** The entries that `for item in data.get("script", [])` visits. Iterating a
      mapping visits its keys and iterating a string its characters: each of
      those is a string, on which the loop's first `.get` fails, so a non-empty
      mapping or string fails as an entry that is not a mapping would. */
  function ScriptEntries(data: Json): (r: Result<seq<Json>, LoadError>)
    ensures !data.JObject? ==> r == Err(NotAMapping)
    ensures data.JObject? && "script" !in data.fields ==> r == Ok([])
    ensures data.JObject? && "script" in data.fields && data.fields["script"].JArray? ==>
      r == Ok(data.fields["script"].items)
  {
    if !data.JObject? then Err(NotAMapping)
    else match Get(data.fields, "script")
      case None => Ok([])
      case Some(JArray(items)) => Ok(items)
      case Some(JObject(keys)) => if keys == map[] then Ok([]) else Err(NotAMapping)
      case Some(JStr(chars)) => if chars == "" then Ok([]) else Err(NotAMapping)
      case Some(_) => Err(NotIterable)
  }

  /** One turn of the loop: dispatch on `item.get("type")`. */
  function ParseStep(item: Json): (r: Result<Step, LoadError>)
  {
    if !item.JObject? then Err(NotAMapping)
    else
      var tag := Get(item.fields, "type");
      if tag == Some(JStr("send")) then
        match NewSend(item.fields)
        case Ok(step) => Ok(step)
        case Err(bad) => Err(Invalid(bad))
      else if tag == Some(JStr("expect")) then
        match NewExpect(item.fields)
        case Ok(step) => Ok(step)
        case Err(bad) => Err(Invalid(bad))
      else
        Err(UnknownType(tag))
  }

  /** "send" entries become Send steps, "expect" entries Expect steps, and an
      entry whose type is anything else, or that has no type, is an unknown
      interaction type. */
  lemma ParseStepDispatch(item: Json)
    ensures ParseStep(item).Ok? && ParseStep(item).value.Send? <==>
      item.JObject? && Get(item.fields, "type") == Some(JStr("send")) && NewSend(item.fields).Ok?
    ensures ParseStep(item).Ok? && ParseStep(item).value.Expect? <==>
      item.JObject? && Get(item.fields, "type") == Some(JStr("expect")) && NewExpect(item.fields).Ok?
    ensures item.JObject? ==>
      (ParseStep(item).Err? && ParseStep(item).error.UnknownType? <==>
       Get(item.fields, "type") != Some(JStr("send")) && Get(item.fields, "type") != Some(JStr("expect")))
    ensures item.JObject? && "type" !in item.fields ==> ParseStep(item) == Err(UnknownType(None))
  {
  }

  /** An entry written from a step is read back as that step. */
  lemma ParseStepRoundTrip(step: Step)
    ensures ParseStep(JObject(Dump(step))) == Ok(step)
  {
    DumpRoundTrip(step);
  }

  /** load_script on the parsed document `data`. */
  method LoadScript(data: Json) returns (r: Result<Script, LoadError>)
    ensures ScriptEntries(data).Err? ==> r == Err(ScriptEntries(data).error)
    ensures ScriptEntries(data).Ok? ==>
      var items := ScriptEntries(data).value;
      && (r.Ok? <==> forall i :: 0 <= i < |items| ==> ParseStep(items[i]).Ok?)
      && (r.Ok? ==>
            && |r.value.items| == |items|
            && forall i :: 0 <= i < |items| ==> ParseStep(items[i]) == Ok(r.value.items[i]))
      && (r.Err? ==>
            exists k :: 0 <= k < |items| && ParseStep(items[k]) == Err(r.error)
                     && forall i :: 0 <= i < k ==> ParseStep(items[i]).Ok?)
    ensures data.JObject? && "script" !in data.fields ==> r == Ok(Script([]))
  {
    var entries := ScriptEntries(data);
    if entries.Err? {
      return Err(entries.error);
    }
    var items := entries.value;
    var interactions: seq<Step> := [];
    for i := 0 to |items|
      invariant |interactions| == i
      invariant forall j :: 0 <= j < i ==> ParseStep(items[j]) == Ok(interactions[j])
    {
      var step := ParseStep(items[i]);
      if step.Err? {
        return Err(step.error);
      }
      interactions := interactions + [step.value];
    }
    return Ok(Script(interactions));
  }

  /** The entries of tests/test_loader.py. */
  lemma LoaderExamples()
    ensures ParseStep(JObject(map["type" := JStr("send"), "at_ms" := JInt(100),
                                  "payload" := JObject(map["event" := JStr("hello")])]))
            == Ok(Send(100, JObject(map["event" := JStr("hello")])))
    ensures ParseStep(JObject(map["type" := JStr("expect"), "timeout_ms" := JInt(500),
                                  "match" := JObject(map["event" := JStr("world")])]))
            == Ok(Expect(500, JObject(map["event" := JStr("world")])))
    ensures ParseStep(JObject(map["type" := JStr("unknown_type"), "some_field" := JInt(123)]))
            == Err(UnknownType(Some(JStr("unknown_type"))))
  {
    assert "unknown_type"[0] != "send"[0] && "unknown_type"[0] != "expect"[0];
  }
}

/** The frame the chat components hand to the socket manager for sending, and the
    JSON object it stands for. */
module Outbound {
  import opened Wrappers
  import Json

  /** `{message, llm_name, provider, files}`; a `None` field is left out of the object
      (a property whose value is `undefined` is dropped by `JSON.stringify`, and
      `files` is only spread in when present). */
  datatype Frame = Frame(message: string, llmName: Option<string>, provider: string, files: Option<seq<string>>)

  function StrArray(ids: seq<string>): (items: seq<Json.Value>)
    ensures |items| == |ids|
    ensures forall i :: 0 <= i < |ids| ==> items[i] == Json.Str(ids[i])
  {
    seq(|ids|, i requires 0 <= i < |ids| => Json.Str(ids[i]))
  }

  /** The object literal the components build. */
  function ToJson(f: Frame): (v: Json.Value)
  {
    var base := map["message" := Json.Str(f.message), "provider" := Json.Str(f.provider)];
    var withName := if f.llmName.Some? then base["llm_name" := Json.Str(f.llmName.value)] else base;
    Json.Object(if f.files.Some? then withName["files" := Json.Array(StrArray(f.files.value))] else withName)
  }

  /** The strings of an array whose items are all strings. */
  function Strings(items: seq<Json.Value>): (r: Option<seq<string>>)
    ensures r.Some? ==> |r.value| == |items|
  {
    if items == [] then Some([])
    else if !items[0].Str? then None
    else
      match Strings(items[1..])
      case None => None
      case Some(rest) => Some([items[0].s] + rest)
  }

  /** Reads a frame back from a JSON value: what a receiver of the wire text sees. */
  function FromJson(v: Json.Value): Option<Frame>
  {
    if !v.Object? then None
    else
      var m := v.fields;
      if !("message" in m && m["message"].Str? && "provider" in m && m["provider"].Str?) then None
      else if "llm_name" in m && !m["llm_name"].Str? then None
      else if "files" in m && !(m["files"].Array? && Strings(m["files"].items).Some?) then None
      else
        Some(Frame(m["message"].s,
                   if "llm_name" in m then Some(m["llm_name"].s) else None,
                   m["provider"].s,
                   if "files" in m then Strings(m["files"].items) else None))
  }

  lemma {:induction false} StringsOfStrArray(ids: seq<string>)
    ensures Strings(StrArray(ids)) == Some(ids)
  {
    if ids != [] {
      StringsOfStrArray(ids[1..]);
      assert StrArray(ids)[1..] == StrArray(ids[1..]);
      assert [ids[0]] + ids[1..] == ids;
    }
  }

  /** Every frame can be read back from its JSON object unchanged: in particular the
      file identifiers appear in the sent object verbatim and in order. */
  lemma RoundTrip(f: Frame)
    ensures FromJson(ToJson(f)) == Some(f)
  {
    if f.files.Some? {
      StringsOfStrArray(f.files.value);
    }
  }

  /** The `files` key is present exactly when the frame carries file identifiers, and
      holds them as an array of strings. */
  lemma FilesInObject(f: Frame)
    ensures "files" in ToJson(f).fields <==> f.files.Some?
    ensures f.files.Some? ==> ToJson(f).fields["files"] == Json.Array(StrArray(f.files.value))
    ensures "llm_name" in ToJson(f).fields <==> f.llmName.Some?
  {
  }
}

/**
  The message handling shared by both TinyGo process builds: decoding the
  message, picking the action from its tags, building the response record,
  and reading the input strings out of linear memory.
 */
module AoHandler {
  import opened Wrappers
  import opened Words

  type byte = x: int | 0 <= x < 256

  /** A decoded JSON value, as `encoding/json` produces it into `interface{}`. */
  datatype Json =
    | JNull
    | JBool(b: bool)
    | JNumber(n: int)
    | JString(s: string)
    | JArray(items: seq<Json>)
    | JObject(fields: map<string, Json>)

  /** The response body: the process result, or the error report of createErrorResponse. */
  datatype ResponseBody =
    | Process(output: string, error: string, messages: seq<Json>, spawns: seq<Json>,
              assignments: seq<Json>, gasUsed: int)
    | ErrorReport(error: string)

  datatype AoResponse = AoResponse(ok: bool, response: ResponseBody)

  /** A Go call either returns a value or panics (traps) with a message. */
  datatype Result<T> = Return(value: T) | Panic(message: string)

  /**
    Unmarshalling into `map[string]interface{}`: an object gives its fields,
    `null` leaves the map nil (which reads as empty), and any other value, like
    a syntax error (`None` from the parser), is an error.
   */
  function DecodeMessage(parsed: Option<Json>): (r: Option<map<string, Json>>)
    ensures r.Some? <==> parsed.Some? && (parsed.value.JObject? || parsed.value.JNull?)
    ensures r.Some? && parsed.value.JObject? ==> r.value == parsed.value.fields
    ensures r.Some? && parsed.value.JNull? ==> r.value == map[]
  {
    match parsed
    case Some(JObject(f)) => Some(f)
    case Some(JNull) => Some(map[])
    case _ => None
  }

  /** The action a tag carries: it is an object whose `name` is the string "Action" and whose `value` is a string. */
  function TagAction(tag: Json): (r: Option<string>)
    ensures r.Some? ==>
      && tag.JObject? && "name" in tag.fields && tag.fields["name"] == JString("Action")
      && "value" in tag.fields && tag.fields["value"] == JString(r.value)
    ensures !tag.JObject? ==> r.None?
  {
    if tag.JObject? && "name" in tag.fields && tag.fields["name"] == JString("Action")
       && "value" in tag.fields && tag.fields["value"].JString?
    then Some(tag.fields["value"].s)
    else None
  }

  /** The action of the first tag that carries one, scanning from the front. */
  function FirstAction(tags: seq<Json>): (r: Option<string>)
    ensures r.Some? ==> exists i :: 0 <= i < |tags| && TagAction(tags[i]) == r
    decreases |tags|
  {
    if |tags| == 0 then None
    else if TagAction(tags[0]).Some? then TagAction(tags[0])
    else
      var rest := FirstAction(tags[1..]);
      assert rest.Some? ==> exists i :: 0 <= i < |tags[1..]| && TagAction(tags[1..][i]) == rest;
      assert forall i :: 0 <= i < |tags[1..]| ==> tags[1..][i] == tags[i + 1];
      rest
  }

  /** The action of a decoded message: from its `Tags` array, or "Default". */
  function ActionOf(msg: map<string, Json>): (action: string)
    ensures action != "Default" ==>
      "Tags" in msg && msg["Tags"].JArray? && FirstAction(msg["Tags"].items) == Some(action)
    ensures !("Tags" in msg && msg["Tags"].JArray?) ==> action == "Default"
  {
    if "Tags" in msg && msg["Tags"].JArray? then FirstAction(msg["Tags"].items).GetOr("Default")
    else "Default"
  }

  /** The process output: "Hello, world!" for the action "Hello", "Unknown action" for any other. */
  function OutputFor(action: string): (output: string)
    ensures output == "Hello, world!" <==> action == "Hello"
    ensures output == "Unknown action" <==> action != "Hello"
  {
    if action == "Hello" then "Hello, world!" else "Unknown action"
  }

  function CreateErrorResponse(errMsg: string): (r: AoResponse)
    ensures !r.ok && r.response.ErrorReport? && r.response.error == errMsg
  {
    AoResponse(false, ErrorReport(errMsg))
  }

  /** A successful response: the output, no error, no messages, spawns or assignments, no gas. */
  predicate IsSuccess(r: AoResponse, output: string) {
    r == AoResponse(true, Process(output, "", [], [], [], 0))
  }

  /** The response handleAO builds for a parsed message. */
  function Reply(parsed: Option<Json>): (r: AoResponse)
    ensures r.ok <==> DecodeMessage(parsed).Some?
    ensures !r.ok ==> r == CreateErrorResponse("Invalid message JSON")
    ensures r.ok ==>
      && r.response.Process? && r.response.error == "" && r.response.gasUsed == 0
      && (r.response.output == "Hello, world!" || r.response.output == "Unknown action")
  {
    match DecodeMessage(parsed)
    case None => CreateErrorResponse("Invalid message JSON")
    case Some(msg) => AoResponse(true, Process(OutputFor(ActionOf(msg)), "", [], [], [], 0))
  }

  /**
    handleAO: decodes the message, scans its tags for the first string Action
    (breaking out of the loop there) and answers with the output for it.  The
    environment is not consulted.
   */
  method HandleAO(msgJson: seq<byte>, envJson: seq<byte>, parse: seq<byte> -> Option<Json>) returns (r: AoResponse)
    ensures DecodeMessage(parse(msgJson)).None? ==> r == CreateErrorResponse("Invalid message JSON")
    ensures DecodeMessage(parse(msgJson)).Some? ==>
      IsSuccess(r, OutputFor(ActionOf(DecodeMessage(parse(msgJson)).value)))
    ensures r == Reply(parse(msgJson))
  {
    var decoded := DecodeMessage(parse(msgJson));
    if decoded.None? {
      return CreateErrorResponse("Invalid message JSON");
    }
    var msg := decoded.value;
    var action := "Default";
    if "Tags" in msg && msg["Tags"].JArray? {
      var tags := msg["Tags"].items;
      var i := 0;
      while i < |tags|
        invariant 0 <= i <= |tags|
        invariant action == "Default"
        invariant FirstAction(tags) == FirstAction(tags[i..])
      {
        var tag := tags[i];
        assert tags[i..][0] == tag && tags[i..][1..] == tags[i + 1..];
        if tag.JObject? {
          var tagMap := tag.fields;
          if "name" in tagMap && tagMap["name"] == JString("Action") {
            if "value" in tagMap && tagMap["value"].JString? {
              action := tagMap["value"].s;
              break;
            }
          }
        }
        i := i + 1;
      }
      assert action == FirstAction(tags).GetOr("Default");
    }
    r := AoResponse(true, Process(OutputFor(action), "", [], [], [], 0));
  }

  // ---------------------------------------------------------------------------
  // The first-match rule, stated without recursion

  /** `FirstAction` finds `v` iff tag `i` carries `v` and no earlier tag carries an action. */
  lemma {:induction false} FirstActionIsFirstMatch(tags: seq<Json>, v: string)
    ensures FirstAction(tags) == Some(v) <==>
      exists i :: 0 <= i < |tags| && TagAction(tags[i]) == Some(v)
        && forall j :: 0 <= j < i ==> TagAction(tags[j]).None?
    decreases |tags|
  {
    if |tags| > 0 {
      FirstActionIsFirstMatch(tags[1..], v);
      if FirstAction(tags) == Some(v) && TagAction(tags[0]).None? {
        var i :| 0 <= i < |tags[1..]| && TagAction(tags[1..][i]) == Some(v)
          && forall j :: 0 <= j < i ==> TagAction(tags[1..][j]).None?;
        assert TagAction(tags[i + 1]) == Some(v);
        forall j | 0 <= j < i + 1 ensures TagAction(tags[j]).None? {
          if j > 0 {
            assert tags[j] == tags[1..][j - 1];
          }
        }
      }
      if exists i :: 0 <= i < |tags| && TagAction(tags[i]) == Some(v)
          && forall j :: 0 <= j < i ==> TagAction(tags[j]).None? {
        var i :| 0 <= i < |tags| && TagAction(tags[i]) == Some(v)
          && forall j :: 0 <= j < i ==> TagAction(tags[j]).None?;
        if i > 0 {
          assert TagAction(tags[1..][i - 1]) == Some(v);
          forall j | 0 <= j < i - 1 ensures TagAction(tags[1..][j]).None? {
            assert tags[1..][j] == tags[j + 1];
          }
        }
      }
    }
  }

  /** No action is found iff no tag carries one. */
  lemma {:induction false} FirstActionNone(tags: seq<Json>)
    ensures FirstAction(tags).None? <==> forall i :: 0 <= i < |tags| ==> TagAction(tags[i]).None?
    decreases |tags|
  {
    if |tags| > 0 {
      FirstActionNone(tags[1..]);
      if forall i :: 0 <= i < |tags[1..]| ==> TagAction(tags[1..][i]).None? {
        forall i | 1 <= i < |tags| ensures TagAction(tags[i]).None? {
          assert tags[i] == tags[1..][i - 1];
        }
      }
    }
  }

  /** Tags that are not objects, are not Action tags, or carry a non-string value are skipped. */
  lemma SkippedTag(tag: Json, rest: seq<Json>)
    requires TagAction(tag).None?
    ensures FirstAction([tag] + rest) == FirstAction(rest)
  {
    assert ([tag] + rest)[1..] == rest;
  }

  /** The output is "Hello, world!" exactly when the message decodes and its first Action tag says "Hello". */
  lemma HelloIffFirstActionHello(msg: map<string, Json>)
    ensures OutputFor(ActionOf(msg)) == "Hello, world!" <==>
      "Tags" in msg && msg["Tags"].JArray? && FirstAction(msg["Tags"].items) == Some("Hello")
  {
  }

  // ---------------------------------------------------------------------------
  // Reading from linear memory

  /** The fixed-size view `(*[1 << 20]byte)` the string is sliced from. */
  const MaxView := 0x10_0000

  /**
    readStringFromMemory: "" for a zero pointer or length; otherwise the
    `length` bytes at `ptr`.  Slicing the view beyond 2^20 bytes panics, and a
    read past the end of linear memory traps.
   */
  function ReadStringFromMemory(mem: seq<byte>, ptr: u32, length: u32): (r: Result<seq<byte>>)
    ensures (ptr == 0 || length == 0) ==> r == Return([])
    ensures ptr != 0 && length != 0 && length <= MaxView && ptr + length <= |mem| ==>
      r.Return? && |r.value| == length && forall k :: 0 <= k < length ==> r.value[k] == mem[ptr + k]
    ensures r.Panic? <==> ptr != 0 && length != 0 && (length > MaxView || ptr + length > |mem|)
  {
    if ptr == 0 || length == 0 then Return([])
    else if length > MaxView then Panic("slice bounds out of range")
    else if ptr + length > |mem| then Panic("out of bounds memory access")
    else Return(mem[ptr..ptr + length])
  }

  /** abort never returns: it panics. */
  function Abort(): (r: Result<()>)
    ensures r.Panic? && r.message == "abort called"
  {
    Panic("abort called")
  }
}

/**
 * The chat routes of the sigmund and heymans servers. `/chat/start` stores
 * the request in the session and clears the user's cancel flag,
 * `/chat/cancel` sets it, and `/chat/stream` turns each reply the chatbot
 * generates into one server-sent event, stopping early when the cancel flag
 * is set and ending with a close event. The sigmund server also has the
 * setting routes, and both have the same attachment upload route.
 *
 * The session and the redis store are fields of the server. Flask, the
 * database, `json.dumps`, `utils.md`, `process_ai_message`,
 * `secure_filename`, base64, `describe_file` and the value the redis store
 * holds when the stream checks it are given.
 */
module ChatApi {
  import opened Wrappers
  import opened Strings
  import BT = HeymansBaseTool
  import SM = SigmundMessages
  import Sigmund
  import PyLists

  type Json = BT.Json

  /** What the chatbot generates: a dictionary, sent as it is, or a message and its metadata. */
  datatype Reply = Dict(value: Json) | Message(text: string, metadata: Json)

  /** What turns a message into its event: the AI's name, `process_ai_message`, `utils.md` and `json.dumps`. */
  datatype Render = Render(aiName: string, process: string -> string, md: string -> string, dumps: Json -> string)

  /** `data.get(key)`: the value of the last member with this key, as `json.loads` keeps the last. */
  function Get(members: seq<(string, Json)>, key: string): Option<Json>
    decreases |members|
  {
    if members == [] then None
    else if members[|members| - 1].0 == key then Some(members[|members| - 1].1)
    else Get(members[..|members| - 1], key)
  }

  /** What an event carries: a dictionary as it is, a message as its rendered response and its metadata. */
  function Payload(render: Render, r: Reply): Json
  {
    match r
    case Dict(v) => v
    case Message(text, metadata) =>
      BT.JObject([("response", BT.JString(render.md(render.aiName + ": " + render.process(text)))), ("metadata", metadata)])
  }

  /** `f'data: {reply}\n\n'`. */
  function DataEvent(render: Render, r: Reply): string
  {
    "data: " + render.dumps(Payload(render, r)) + "\n\n"
  }

  const Close: string := "data: {\"action\": \"close\"}\n\n"

  function DataEvents(render: Render, rs: seq<Reply>): (es: seq<string>)
    ensures |es| == |rs|
  {
    seq(|rs|, i requires 0 <= i < |rs| => DataEvent(render, rs[i]))
  }

  /** A truthy value of the cancel flag: redis returns the bytes stored, and only empty bytes are falsy. */
  predicate Cancelled(flag: Option<string>)
  {
    flag.Some? && flag.value != ""
  }

  /** Of the checks after the first `n` events, the first that finds the flag set. */
  function FirstCancel(flagAt: nat -> Option<string>, n: nat): (r: Option<nat>)
    ensures r.Some? ==> r.value < n && Cancelled(flagAt(r.value))
    decreases n
  {
    if n == 0 then None
    else
      match FirstCancel(flagAt, n - 1)
      case Some(k) => Some(k)
      case None => if Cancelled(flagAt(n - 1)) then Some(n - 1) else None
  }

  /**
   * The events of `/chat/stream` for the replies a generator yields before
   * it ends, with the exception it ends with: up to the event after which
   * the flag is found set, then close; without a cancel, all of them, then
   * close, unless the generator raised.
   */
  function StreamSpec(render: Render, replies: seq<Reply>, err: Option<Exception>, flagAt: nat -> Option<string>): (seq<string>, Option<Exception>)
  {
    match FirstCancel(flagAt, |replies|)
    case Some(k) => (DataEvents(render, replies[..k + 1]) + [Close], None)
    case None =>
      if err.Some? then (DataEvents(render, replies), err) else (DataEvents(render, replies) + [Close], None)
  }

  /** `stream_cancel_<user id>`. */
  function CancelKey(userId: string): string
  {
    "stream_cancel_" + userId
  }

  function DictOf(members: seq<(string, Json)>, m: map<string, Json>): map<string, Json>
    decreases |members|
  {
    if members == [] then m else DictOf(members[..|members| - 1], m)[members[|members| - 1].0 := members[|members| - 1].1]
  }

  /** What `add_attachment` receives: a file part and its name. */
  datatype Upload = Upload(filename: string, content: seq<bv8>)

  /** What `/attachments/add` answers: the status code, success, and the message or the attachment id. */
  datatype AttachResponse = AttachResponse(code: nat, success: bool, message: Option<string>, attachmentId: Option<int>)

  /**
   * `/attachments/add`: 400 without a file part or with an empty filename,
   * otherwise the file is described and stored, and 500 when the database
   * gives -1 for its id.
   */
  function AddAttachment(files: map<string, Upload>, secureFilename: string -> string, describe: (string, seq<bv8>) -> string,
                         b64: seq<bv8> -> string, store: (string, string, string) -> int): (r: AttachResponse)
    ensures r.message.Some? <==> !r.success
    ensures r.attachmentId.Some? <==> r.success
  {
    if "file" !in files then AttachResponse(400, false, Some("No file part"), None)
    else
      var file := files["file"];
      if file.filename == "" then AttachResponse(400, false, Some("No selected file"), None)
      else
        var filename := secureFilename(file.filename);
        var description := describe(filename, file.content);
        var id := store(filename, b64(file.content), description);
        if id == -1 then AttachResponse(500, false, Some("Failed to add attachment"), None)
        else AttachResponse(200, true, None, Some(id))
  }

  class ChatServer {
    const userId: string
    /** Whether `/chat/start` also stores `search_first` (heymans does, sigmund does not). */
    const storesSearchFirst: bool
    var session: map<string, Json>
    var redis: map<string, string>
    /** The user's settings in the database. */
    var settings: map<string, Json>

    constructor (userId: string, storesSearchFirst: bool)
      ensures this.userId == userId && this.storesSearchFirst == storesSearchFirst
      ensures session == map[] && redis == map[] && settings == map[]
    {
      this.userId := userId;
      this.storesSearchFirst := storesSearchFirst;
      session := map[];
      redis := map[];
      settings := map[];
    }

    /**
     * `/chat/start`: the message (default empty), `search_first` (default
     * true, heymans only) and the message id (default None) go into the
     * session and the cancel flag is deleted. A body that is not an object
     * has no `get`.
     */
    method ChatStart(data: Json) returns (r: Result<string>)
      modifies this
      ensures settings == old(settings)
      ensures !data.JObject? ==> r.Err? && r.error.AttributeError? && session == old(session) && redis == old(redis)
      ensures data.JObject? ==>
        && r == Ok("{}")
        && session.Keys == old(session.Keys) + {"user_message", "message_id"} + (if storesSearchFirst then {"search_first"} else {})
        && session["user_message"] == Get(data.members, "message").UnwrapOr(BT.JString(""))
        && session["message_id"] == Get(data.members, "message_id").UnwrapOr(BT.JNull)
        && (storesSearchFirst ==> session["search_first"] == Get(data.members, "search_first").UnwrapOr(BT.JBool(true)))
        && (forall k :: k in old(session) && k !in {"user_message", "message_id", "search_first"} ==> session[k] == old(session)[k])
        && CancelKey(userId) !in redis
        && (forall k :: k in old(redis) && k != CancelKey(userId) ==> k in redis && redis[k] == old(redis)[k])
        && redis.Keys <= old(redis.Keys)
    {
      if !data.JObject? {
        return Err(AttributeError("object has no attribute 'get'"));
      }
      session := session["user_message" := Get(data.members, "message").UnwrapOr(BT.JString(""))];
      if storesSearchFirst {
        session := session["search_first" := Get(data.members, "search_first").UnwrapOr(BT.JBool(true))];
      }
      session := session["message_id" := Get(data.members, "message_id").UnwrapOr(BT.JNull)];
      redis := redis - {CancelKey(userId)};
      return Ok("{}");
    }

    /** `/chat/cancel`: the cancel flag is set to '1'; the answer is status 'cancelled' with code 200. */
    method ChatCancel() returns (status: string, code: nat)
      modifies this
      ensures redis == old(redis)[CancelKey(userId) := "1"]
      ensures Cancelled(Some(redis[CancelKey(userId)]))
      ensures session == old(session) && settings == old(settings)
      ensures status == "cancelled" && code == 200
    {
      redis := redis[CancelKey(userId) := "1"];
      return "cancelled", 200;
    }

    /** What `/chat/stream` reads from the session before it streams: the message and its id. */
    method StreamArgs() returns (r: Result<(Json, Json)>)
      ensures "user_message" !in session ==> r == Err(KeyError("user_message"))
      ensures "user_message" in session && "message_id" !in session ==> r == Err(KeyError("message_id"))
      ensures "user_message" in session && "message_id" in session ==> r == Ok((session["user_message"], session["message_id"]))
    {
      if "user_message" !in session {
        return Err(KeyError("user_message"));
      }
      var message := session["user_message"];
      if "message_id" !in session {
        return Err(KeyError("message_id"));
      }
      return Ok((message, session["message_id"]));
    }

    /** `/setting/set`: every member of an object body is written; any other body writes nothing. */
    method SetSetting(data: Json) returns (success: bool, message: Option<string>)
      modifies this
      ensures session == old(session) && redis == old(redis)
      ensures !data.JObject? ==> !success && message == Some("invalid setting data") && settings == old(settings)
      ensures data.JObject? ==> success && message.None? && settings == DictOf(data.members, old(settings))
    {
      if !data.JObject? {
        return false, Some("invalid setting data");
      }
      var members := data.members;
      for i := 0 to |members|
        invariant settings == DictOf(members[..i], old(settings))
        invariant session == old(session) && redis == old(redis)
      {
        assert members[..i + 1][..i] == members[..i];
        settings := settings[members[i].0 := members[i].1];
      }
      assert members[..|members|] == members;
      return true, None;
    }

    /**
     * `/setting/get/<key>`: the stored value; when there is none (or it is
     * None), the default, when there is one; otherwise success is false.
     */
    method GetSetting(key: string, defaults: map<string, Json>) returns (success: bool, value: Json)
      ensures key in settings && settings[key] != BT.JNull ==> success && value == settings[key]
      ensures (key !in settings || settings[key] == BT.JNull) && key in defaults ==> success && value == defaults[key]
      ensures (key !in settings || settings[key] == BT.JNull) && key !in defaults ==> !success && value == BT.JNull
    {
      value := if key in settings then settings[key] else BT.JNull;
      if value == BT.JNull {
        if key in defaults {
          value := defaults[key];
        } else {
          return false, value;
        }
      }
      return true, value;
    }
  }

  /**
   * The generator of `/chat/stream`, on the replies the chatbot yields and
   * the exception it ends with; `flagAt(i)` is what the redis store holds
   * for the cancel flag when it is checked after the event for reply `i`
   * (a `/chat/cancel` may come in while the stream runs).
   */
  method Generate(render: Render, replies: seq<Reply>, err: Option<Exception>, flagAt: nat -> Option<string>)
    returns (events: seq<string>, raised: Option<Exception>)
    ensures (events, raised) == StreamSpec(render, replies, err, flagAt)
  {
    events := [];
    var i := 0;
    while i < |replies|
      invariant i <= |replies|
      invariant events == DataEvents(render, replies[..i])
      invariant FirstCancel(flagAt, i).None?
    {
      events := events + [DataEvent(render, replies[i])];
      assert events == DataEvents(render, replies[..i + 1]);
      if Cancelled(flagAt(i)) {
        FirstCancelStays(flagAt, i + 1, |replies|);
        return events + [Close], None;
      }
      i := i + 1;
    }
    assert replies[..i] == replies;
    if err.Some? {
      return events, err;
    }
    events := events + [Close];
    return events, None;
  }

  /** The sigmund chatbot's events as replies: an indicator as its action dictionary with empty metadata, a message with its metadata. */
  function SigmundReply(e: Sigmund.Event): Reply
  {
    match e
    case Indicator(message) =>
      Dict(BT.JObject([("action", BT.JString("set_loading_indicator")), ("message", BT.JString(message))]))
    case Said(text, metadata) => Message(text, MetadataJson(metadata))
  }

  function SigmundReplies(es: seq<Sigmund.Event>): (rs: seq<Reply>)
    ensures |rs| == |es|
  {
    seq(|es|, i requires 0 <= i < |es| => SigmundReply(es[i]))
  }

  function OptionalString(s: Option<string>): Json
  {
    if s.Some? then BT.JString(s.value) else BT.JNull
  }

  /** The metadata dictionary of a sigmund message. */
  function MetadataJson(m: SM.Metadata): Json
  {
    BT.JObject([
      ("message_id", OptionalString(m.messageId)),
      ("workspace_content", OptionalString(m.workspaceContent)),
      ("workspace_language", OptionalString(m.workspaceLanguage)),
      ("timestamp", BT.JString(m.timestamp)),
      ("sources", BT.JString(m.sources)),
      ("condense_model", BT.JString(m.condenseModel)),
      ("answer_model", BT.JString(m.answerModel))])
  }

  /**
   * What the heymans stream iterates over as the source calls it:
   * `send_user_message(message, message_id)` on a method that takes only
   * the message, which raises before anything is yielded.
   */
  function HeymansRepliesAsWritten(message: Json, messageId: Json): (seq<Reply>, Option<Exception>)
  {
    ([], Some(TypeError("send_user_message() takes 2 positional arguments but 3 were given")))
  }

  /**
   * What the heymans stream evidently means to iterate over:
   * `[heymans.send_user_message(message)]`, the one `(reply, None)` pair the
   * chatbot returns (its metadata is what `Messages.append` returns, None),
   * or nothing when the chatbot raises.
   */
  function HeymansReplies(r: Result<string>): (o: (seq<Reply>, Option<Exception>))
    ensures o.1.None? <==> r.Ok?
    ensures |o.0| == (if r.Ok? then 1 else 0)
    ensures forall i :: 0 <= i < |o.0| ==> o.0[i].Message? && o.0[i].metadata == BT.JNull
  {
    match r
    case Ok(reply) => ([Message(reply, BT.JNull)], None)
    case Err(e) => ([], Some(e))
  }

  // ---------------------------------------------------------------------------
  // Properties

  /** Once a check found the flag set, the first such check stays the same. */
  lemma {:induction false} FirstCancelStays(flagAt: nat -> Option<string>, i: nat, n: nat)
    requires 0 < i <= n && FirstCancel(flagAt, i - 1).None? && Cancelled(flagAt(i - 1))
    ensures FirstCancel(flagAt, n) == Some(i - 1)
    decreases n
  {
    if n > i {
      FirstCancelStays(flagAt, i, n - 1);
    }
  }

  /** The first check that finds the flag set is the earliest index at which it is set. */
  lemma {:induction false} FirstCancelEarliest(flagAt: nat -> Option<string>, n: nat)
    ensures FirstCancel(flagAt, n).None? <==> forall j :: 0 <= j < n ==> !Cancelled(flagAt(j))
    ensures FirstCancel(flagAt, n).Some? ==> forall j :: 0 <= j < FirstCancel(flagAt, n).value ==> !Cancelled(flagAt(j))
    decreases n
  {
    if n > 0 {
      FirstCancelEarliest(flagAt, n - 1);
    }
  }

  /**
   * Every event but a final close is the event of the reply at its index,
   * so each reply gives exactly one event, in order; the close comes last
   * whenever the stream ends without an exception.
   */
  lemma {:induction false} OneEventPerReply(render: Render, replies: seq<Reply>, err: Option<Exception>, flagAt: nat -> Option<string>)
    ensures var (es, raised) := StreamSpec(render, replies, err, flagAt);
      var n := if raised.Some? then |es| else |es| - 1;
      && (raised.None? ==> es != [] && es[|es| - 1] == Close)
      && 0 <= n <= |replies|
      && (forall i :: 0 <= i < n ==> es[i] == DataEvent(render, replies[i]))
  {
  }

  /** The stream stops right after the event whose check finds the flag set: nothing of the chatbot's is sent after it. */
  lemma {:induction false} CancelStopsAfterEvent(render: Render, replies: seq<Reply>, err: Option<Exception>, flagAt: nat -> Option<string>, k: nat)
    requires k < |replies| && Cancelled(flagAt(k))
    ensures var (es, raised) := StreamSpec(render, replies, err, flagAt);
      raised.None? && |es| <= k + 2 && es[|es| - 1] == Close
  {
    FirstCancelEarliest(flagAt, |replies|);
  }

  /** Without a cancel, every reply is sent, then close, or the exception when the chatbot raised. */
  lemma {:induction false} UncancelledSendsAll(render: Render, replies: seq<Reply>, err: Option<Exception>, flagAt: nat -> Option<string>)
    requires forall j :: 0 <= j < |replies| ==> !Cancelled(flagAt(j))
    ensures var (es, raised) := StreamSpec(render, replies, err, flagAt);
      && raised == err
      && es[..|replies|] == DataEvents(render, replies)
      && (err.None? <==> |es| == |replies| + 1)
  {
    FirstCancelEarliest(flagAt, |replies|);
  }

  /** `/chat/start` then `/chat/stream`: the stream reads back what was stored. */
  lemma {:induction false} SessionRoundTrip(members: seq<(string, Json)>, session: map<string, Json>)
    ensures var s := session["user_message" := Get(members, "message").UnwrapOr(BT.JString(""))]["message_id" := Get(members, "message_id").UnwrapOr(BT.JNull)];
      s["user_message"] == Get(members, "message").UnwrapOr(BT.JString("")) && s["message_id"] == Get(members, "message_id").UnwrapOr(BT.JNull)
  {
  }

  /** After `/setting/set`, every key of the body holds its last value there, and every other key keeps its value. */
  lemma {:induction false} SettingsWritten(members: seq<(string, Json)>, m: map<string, Json>, key: string)
    ensures Get(members, key).Some? ==> key in DictOf(members, m) && DictOf(members, m)[key] == Get(members, key).value
    ensures Get(members, key).None? ==> (key in DictOf(members, m) <==> key in m) && (key in m ==> DictOf(members, m)[key] == m[key])
    decreases |members|
  {
    if members != [] {
      SettingsWritten(members[..|members| - 1], m, key);
    }
  }

  /** The upload answers 400 exactly when there is no usable file, and 500 exactly when the database refuses it. */
  lemma {:induction false} AttachmentCodes(files: map<string, Upload>, secureFilename: string -> string, describe: (string, seq<bv8>) -> string,
                                           b64: seq<bv8> -> string, store: (string, string, string) -> int)
    ensures var r := AddAttachment(files, secureFilename, describe, b64, store);
      && (r.code == 400 <==> "file" !in files || files["file"].filename == "")
      && (r.success <==> r.code == 200)
      && (r.code == 500 ==> r.message == Some("Failed to add attachment"))
      && (r.success ==> r.attachmentId.Some? && r.attachmentId.value != -1)
      && r.code in {200, 400, 500}
  {
  }

  /** As the heymans stream calls the chatbot, it raises before its first event and never sends close. */
  lemma {:induction false} HeymansStreamRaises(render: Render, message: Json, messageId: Json, flagAt: nat -> Option<string>)
    ensures var (rs, err) := HeymansRepliesAsWritten(message, messageId);
      var (es, raised) := StreamSpec(render, rs, err, flagAt);
      es == [] && raised.Some? && raised.value.TypeError?
  {
  }

  /** Iterating the one `(reply, None)` pair, the heymans answer is sent as one message event followed by close. */
  lemma {:induction false} HeymansStreamCloses(render: Render, reply: string, flagAt: nat -> Option<string>)
    ensures var (rs, err) := HeymansReplies(Ok(reply));
      var (es, raised) := StreamSpec(render, rs, err, flagAt);
      raised.None? && es == [DataEvent(render, Message(reply, BT.JNull)), Close]
  {
    assert [Message(reply, BT.JNull)][..1] == [Message(reply, BT.JNull)];
  }

  /** A sigmund indicator is sent as its action dictionary and a sigmund message with its metadata. */
  lemma {:induction false} SigmundPayloads(render: Render, e: Sigmund.Event)
    ensures e.Indicator? ==> Payload(render, SigmundReply(e)) == BT.JObject([("action", BT.JString("set_loading_indicator")), ("message", BT.JString(e.message))])
    ensures e.Said? ==> Payload(render, SigmundReply(e)).members[0].1 == BT.JString(render.md(render.aiName + ": " + render.process(e.text)))
    ensures e.Said? ==> Payload(render, SigmundReply(e)).members[1].1 == MetadataJson(e.metadata)
  {
  }
}

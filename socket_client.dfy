/**
 * `websocket_client.js`: the chat page's connection to a local companion
 * (an IDE). On open it clears any retry timer and replays the
 * conversation: `clear_messages`, then one message per message box in
 * page order, the AI boxes as their HTML and the others as their text,
 * each read from a copy stripped of its controls. A close arms the retry
 * timer; an error closes the socket. Inbound `user_message` actions are
 * handed to the page (`ChatPage.Page.OnSocketMessage`).
 *
 * The browser is an oracle: `html(n)` is what `getHTML()` serialises an
 * element to, and frames are kept as values, the JSON text
 * `JSON.stringify` makes of them aside.
 */
module SocketClient {
  import opened Wrappers
  import opened DomNodes
  import Reconnect

  /** A field of an outbound envelope: `undefined` fields are left out of the JSON text. */
  datatype Field = Undefined | Null | Str(value: string)

  /** The object `socketSendMessage(action, message, workspace_content, workspace_language)` sends. */
  datatype Envelope = Envelope(action: string, message: Field, workspaceContent: Field, workspaceLanguage: Field)

  /** An inbound message after `JSON.parse`, its string fields read as strings. */
  datatype Inbound = Inbound(action: string, message: string, workspaceContent: string, workspaceLanguage: string)

  /** `readyState` of the current socket. */
  datatype SocketState = Connecting | Open | Closing | Closed

  /** The first frame of a replay. */
  const ClearMessages: Envelope := Envelope("clear_messages", Undefined, Undefined, Undefined)

  /** The frame a message box is replayed as, read from its stripped copy. */
  function ChildFrame(child: Node, html: Node -> string): Envelope
  {
    var copy := CopyAndStrip(child);
    if HasClass(copy, "message-ai") then Envelope("ai_message", Str(html(copy)), Undefined, Undefined)
    else Envelope("user_message", Str(TextContent(copy)), Undefined, Undefined)
  }

  /** The frames for the first `k` message boxes. */
  function ChildFrames(children: seq<Node>, html: Node -> string, k: nat): (r: seq<Envelope>)
    requires k <= |children|
    ensures |r| == k
  {
    if k == 0 then [] else ChildFrames(children, html, k - 1) + [ChildFrame(children[k - 1], html)]
  }

  /** What `onopen` sends: `clear_messages`, then one frame per box. */
  function Replay(children: seq<Node>, html: Node -> string): seq<Envelope>
  {
    [ClearMessages] + ChildFrames(children, html, |children|)
  }

  /** The `i`-th frame for the boxes is the `i`-th box's, whatever follows it. */
  lemma {:induction false} ChildFramesAt(children: seq<Node>, html: Node -> string, k: nat, i: nat)
    requires i < k <= |children|
    ensures ChildFrames(children, html, k)[i] == ChildFrame(children[i], html)
  {
    if i < k - 1 {
      ChildFramesAt(children, html, k - 1, i);
    }
  }

  /**
   * The replay is `clear_messages` and then, box by box in page order, an
   * `ai_message` with the stripped copy's HTML for a box of class
   * `message-ai` and a `user_message` with its text for any other box.
   */
  lemma ReplayMeaning(children: seq<Node>, html: Node -> string)
    ensures var r := Replay(children, html);
      && |r| == |children| + 1
      && r[0] == ClearMessages
      && forall i :: 0 <= i < |children| ==>
        r[i + 1] == (if HasClass(children[i], "message-ai")
                     then Envelope("ai_message", Str(html(CopyAndStrip(children[i]))), Undefined, Undefined)
                     else Envelope("user_message", Str(TextContent(CopyAndStrip(children[i]))), Undefined, Undefined))
  {
    forall i | 0 <= i < |children|
      ensures Replay(children, html)[i + 1] == ChildFrame(children[i], html)
    {
      ChildFramesAt(children, html, |children|, i);
    }
    forall i | 0 <= i < |children|
      ensures HasClass(CopyAndStrip(children[i]), "message-ai") == HasClass(children[i], "message-ai")
    {
      CopyAndStripMeaning(children[i]);
    }
  }

  /** The inbound messages the page acts on: parsed ones whose action is `user_message`. */
  function UserMessage(parsed: Option<Inbound>): Option<Inbound>
  {
    if parsed.Some? && parsed.value.action == "user_message" then parsed else None
  }

  /** The script's globals: the current socket and the retry timer. */
  class Connection {
    const timer: Reconnect.Retry
    /** The state of the current `socket`. */
    var state: SocketState
    /** The number of sockets `connectWebSocket` has made. */
    var sockets: nat
    /** Every frame the sockets have accepted, in order. */
    var sent: seq<Envelope>

    predicate Valid()
      reads this, timer
    {
      timer.Valid()
    }

    /** The first `connectWebSocket`, from `initMain`: one socket, connecting, no timer. */
    constructor ()
      ensures Valid() && fresh(timer)
      ensures state == Connecting && sockets == 1 && sent == [] && timer.interval == None
    {
      timer := new Reconnect.Retry();
      state := Connecting;
      sockets := 1;
      sent := [];
    }

    /** A tick of the retry interval: `connectWebSocket` replaces the socket. */
    method Tick()
      requires Valid() && timer.interval.Some?
      modifies this
      ensures Valid()
      ensures state == Connecting && sockets == old(sockets) + 1 && sent == old(sent)
    {
      state := Connecting;
      sockets := sockets + 1;
    }

    /**
     * `socketSendMessage`: an open socket takes the frame, a closing or closed
     * one drops it, and a connecting one throws (`send` before the
     * connection is up), which `threw` reports.
     */
    method Send(e: Envelope) returns (threw: bool)
      modifies this
      ensures threw <==> old(state) == Connecting
      ensures sent == old(sent) + (if old(state) == Open then [e] else [])
      ensures state == old(state) && sockets == old(sockets)
    {
      threw := state == Connecting;
      if state == Open {
        sent := sent + [e];
      }
    }

    /** `onopen` with the page's message boxes: the timer is cleared, then the conversation is replayed. */
    method OnOpen(children: seq<Node>, html: Node -> string)
      requires Valid() && state == Connecting
      modifies this, timer
      ensures Valid() && timer.interval == None && timer.armed == {}
      ensures state == Open && sockets == old(sockets)
      ensures sent == old(sent) + Replay(children, html)
    {
      timer.ClearOnOpen();
      state := Open;
      var threw := Send(ClearMessages);
      ghost var sent0 := sent;
      for i := 0 to |children|
        modifies this
        invariant state == Open && sockets == old(sockets)
        invariant sent == sent0 + ChildFrames(children, html, i)
      {
        var copy := CopyAndStripDiv(children[i]);
        var e;
        if HasClass(copy, "message-ai") {
          e := Envelope("ai_message", Str(html(copy)), Undefined, Undefined);
        } else {
          e := Envelope("user_message", Str(TextContent(copy)), Undefined, Undefined);
        }
        threw := Send(e);
      }
    }

    /** `onclose`: `startReconnect`. */
    method OnClose()
      requires Valid()
      modifies this, timer
      ensures Valid() && state == Closed && sockets == old(sockets) && sent == old(sent)
      ensures old(timer.interval).Some? ==> timer.interval == old(timer.interval) && timer.armed == old(timer.armed)
      ensures old(timer.interval).None? ==> timer.interval.Some? && |timer.armed| == 1
    {
      state := Closed;
      timer.StartReconnect();
    }

    /** `onerror`: `socket.close()`, after which the browser fires `onclose`. */
    method OnError()
      requires Valid()
      modifies this
      ensures Valid() && sockets == old(sockets) && sent == old(sent)
      ensures state == (if old(state) == Closed then Closed else Closing)
    {
      if state != Closed {
        state := Closing;
      }
    }
  }
}

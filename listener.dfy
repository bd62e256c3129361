/**
 * `listener.js`, the relay variant of the companion socket: the same
 * reconnect timer, an `onopen` that only clears it, inbound
 * `send_user_message` commands handed to the chat page, and outbound
 * envelopes that always carry the command `send_ai_message`.
 */
module Listener {
  import opened Wrappers
  import Reconnect
  import SC = SocketClient
  import FR = FetchRetry
  import WS = Workspace
  import CP = ChatPage

  /** The command every outbound envelope carries. */
  const SendAiMessage: string := "send_ai_message"

  /** The object `socketSendMessage(message, workspace_content, workspace_language)` sends. */
  datatype RelayEnvelope = RelayEnvelope(command: string, message: SC.Field, workspaceContent: SC.Field, workspaceLanguage: SC.Field)

  /** An inbound message after `JSON.parse`, its string fields read as strings. */
  datatype Command = Command(command: string, message: string, workspaceContent: string, workspaceLanguage: string)

  /** The inbound messages the page acts on: parsed ones whose command is `send_user_message`. */
  function UserCommand(parsed: Option<Command>): Option<Command>
  {
    if parsed.Some? && parsed.value.command == "send_user_message" then parsed else None
  }

  class Relay {
    const timer: Reconnect.Retry
    /** The state of the current `socket`. */
    var state: SC.SocketState
    /** The number of sockets `connectWebSocket` has made. */
    var sockets: nat
    /** Every envelope the sockets have accepted, in order. */
    var sent: seq<RelayEnvelope>

    /** The timer is consistent and every envelope sent is a `send_ai_message`. */
    predicate Valid()
      reads this, timer
    {
      timer.Valid() && forall i :: 0 <= i < |sent| ==> sent[i].command == SendAiMessage
    }

    /** `connectWebSocket()` at load: one socket, connecting. */
    constructor ()
      ensures Valid() && fresh(timer)
      ensures state == SC.Connecting && sockets == 1 && sent == [] && timer.interval == None
    {
      timer := new Reconnect.Retry();
      state := SC.Connecting;
      sockets := 1;
      sent := [];
    }

    /** A tick of the retry interval: a new socket. */
    method Tick()
      requires Valid() && timer.interval.Some?
      modifies this
      ensures Valid()
      ensures state == SC.Connecting && sockets == old(sockets) + 1 && sent == old(sent)
    {
      state := SC.Connecting;
      sockets := sockets + 1;
    }

    /** `onopen`: only the retry interval is cleared. */
    method OnOpen()
      requires Valid() && state == SC.Connecting
      modifies this, timer
      ensures Valid() && timer.interval == None && timer.armed == {}
      ensures state == SC.Open && sockets == old(sockets) && sent == old(sent)
    {
      timer.ClearOnOpen();
      state := SC.Open;
    }

    /** `onclose`: `startReconnect`. */
    method OnClose()
      requires Valid()
      modifies this, timer
      ensures Valid() && state == SC.Closed && sockets == old(sockets) && sent == old(sent)
      ensures old(timer.interval).Some? ==> timer.interval == old(timer.interval) && timer.armed == old(timer.armed)
      ensures old(timer.interval).None? ==> timer.interval.Some? && |timer.armed| == 1
    {
      state := SC.Closed;
      timer.StartReconnect();
    }

    /** `onerror`: `socket.close()`. */
    method OnError()
      requires Valid()
      modifies this
      ensures Valid() && sockets == old(sockets) && sent == old(sent)
      ensures state == (if old(state) == SC.Closed then SC.Closed else SC.Closing)
    {
      if state != SC.Closed {
        state := SC.Closing;
      }
    }

    /** `socketSendMessage`: an open socket takes the envelope, a connecting one throws, a closing or closed one drops it. */
    method Send(message: SC.Field, workspaceContent: SC.Field, workspaceLanguage: SC.Field) returns (threw: bool)
      requires Valid()
      modifies this
      ensures Valid()
      ensures threw <==> old(state) == SC.Connecting
      ensures sent == old(sent) + (if old(state) == SC.Open then [RelayEnvelope(SendAiMessage, message, workspaceContent, workspaceLanguage)] else [])
      ensures state == old(state) && sockets == old(sockets)
    {
      threw := state == SC.Connecting;
      if state == SC.Open {
        sent := sent + [RelayEnvelope(SendAiMessage, message, workspaceContent, workspaceLanguage)];
      }
    }

    /** `onmessage`: a `send_user_message` fills the message box and the workspace, then is sent; anything else is ignored. */
    method OnMessage(page: CP.Page, parsed: Option<Command>, id: string, attempt: nat -> FR.Attempt<()>) returns (started: bool)
      requires page.Valid()
      modifies page, page.input, page.editor
      ensures page.Valid()
      ensures UserCommand(parsed).None? ==>
        && !started && page.boxes == old(page.boxes) && page.isStreaming == old(page.isStreaming)
        && page.source == old(page.source) && page.input.value == old(page.input.value)
        && page.editor.value == old(page.editor.value)
      ensures UserCommand(parsed).Some? ==>
        var m := parsed.value;
        && page.input.value == m.message
        && page.editor.value == m.workspaceContent
        && page.editor.mode == WS.WorkspaceLanguage(m.workspaceLanguage, page.editor.options).1
        && (started <==> !FR.Retry(attempt, 0, CP.StartRetries).Threw?)
        && page.boxes == old(page.boxes) + CP.UserBoxes(m.message, id, m.workspaceContent, page.editor.mode)
    {
      started := false;
      if parsed.Some? && parsed.value.command == "send_user_message" {
        var m := parsed.value;
        page.input.value := m.message;
        page.editor.SetWorkspace(m.workspaceContent, m.workspaceLanguage);
        started := page.SendMessage(m.message, id, false, attempt);
      }
    }
  }
}

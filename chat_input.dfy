/**
 * The message box of the chat pages (sigmund's and heymans' `main.js`): a
 * character counter that also cuts the text short of the maximum length,
 * a send button enabled from three characters on, Enter (without Shift)
 * pressing an enabled send button, and a click that takes the text out of
 * the box for sending.
 */
module ChatInput {
  import opened Wrappers
  import opened Strings

  /** The counter label `updateCounter` writes for a text of `length` characters. */
  function CounterText(length: nat, maxLength: int): string
  {
    NatToString(length) + "/" + IntToString(maxLength) + " characters"
  }

  /** The text `updateCounter` leaves in the box: cut to one character short of the maximum once it reaches it. */
  function Bounded(value: string, maxLength: int): string
  {
    if |value| >= maxLength then JsSliceTo(value, maxLength - 1) else value
  }

  /**
   * The cut text is a prefix of the text, and for a positive maximum it is
   * shorter than the maximum; a text below the maximum is left alone.
   */
  lemma BoundedMeaning(value: string, maxLength: int)
    ensures var r := Bounded(value, maxLength);
      && r <= value
      && (maxLength >= 1 ==> |r| < maxLength)
      && (|value| < maxLength ==> r == value)
      && (1 <= maxLength <= |value| ==> |r| == maxLength - 1)
  {
  }

  /** The send button's state after an input event: disabled below three characters, when the page gates it. */
  function SendDisabled(value: string, gateSend: bool, wasDisabled: bool): bool
  {
    if gateSend then |value| < 3 else wasDisabled
  }

  /** Whether a key press clicks the send button: Enter without Shift, with the button enabled. */
  predicate EnterClicks(key: string, shift: bool, sendDisabled: bool)
  {
    key == "Enter" && !shift && !sendDisabled
  }

  /** The message box, its counter and the send button. */
  class MessageInput {
    /** `messageInput.value`. */
    var value: string
    /** `messageCounter.innerText`. */
    var counterText: string
    /** `sendButton.disabled`. */
    var sendDisabled: bool
    /** `max_message_length`. */
    const maxLength: int
    /** Whether typing enables the send button (always on heymans' page, only without `need_login` on sigmund's). */
    const gateSend: bool

    /** `initMain`: the listeners are registered and the counter is updated once. */
    constructor (maxLength: int, gateSend: bool, value: string, sendDisabled: bool)
      ensures this.maxLength == maxLength && this.gateSend == gateSend
      ensures this.value == Bounded(value, maxLength)
      ensures counterText == CounterText(|value|, maxLength)
      ensures this.sendDisabled == sendDisabled
    {
      this.maxLength := maxLength;
      this.gateSend := gateSend;
      this.value := value;
      this.sendDisabled := sendDisabled;
      new;
      UpdateCounter();
    }

    /** `updateCounter`. */
    method UpdateCounter()
      modifies this
      ensures counterText == CounterText(|old(value)|, maxLength)
      ensures value == Bounded(old(value), maxLength)
      ensures sendDisabled == old(sendDisabled)
    {
      var length := |value|;
      counterText := NatToString(length) + "/" + IntToString(maxLength) + " characters";
      if length >= maxLength {
        value := JsSliceTo(value, maxLength - 1);
      }
    }

    /** An `input` event with the box now holding `typed`: the counter listener, then the send-button listener. */
    method Input(typed: string)
      modifies this
      ensures counterText == CounterText(|typed|, maxLength)
      ensures value == Bounded(typed, maxLength)
      ensures sendDisabled == SendDisabled(value, gateSend, old(sendDisabled))
    {
      value := typed;
      UpdateCounter();
      if gateSend {
        sendDisabled := |value| < 3;
      }
    }

    /** A click on the send button: the text is taken out of the box; no input event fires, so the counter and the button stay as they were. */
    method Click() returns (message: string)
      modifies this
      ensures message == old(value) && value == ""
      ensures counterText == old(counterText) && sendDisabled == old(sendDisabled)
    {
      message := value;
      value := "";
    }

    /** A `keydown`: Enter without Shift clicks the send button when it is enabled; the message clicked out, if any. */
    method KeyDown(key: string, shift: bool) returns (sent: Option<string>)
      modifies this
      ensures EnterClicks(key, shift, old(sendDisabled)) ==> sent == Some(old(value)) && value == ""
      ensures !EnterClicks(key, shift, old(sendDisabled)) ==> sent == None && value == old(value)
      ensures counterText == old(counterText) && sendDisabled == old(sendDisabled)
    {
      sent := None;
      if key == "Enter" && !shift {
        if !sendDisabled {
          var message := Click();
          sent := Some(message);
        }
      }
    }
  }
}

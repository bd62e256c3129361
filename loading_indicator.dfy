/**
 * The loading indicator of the chat pages: a label that, once a second,
 * shows a base message followed by one, two or three dots in turn; sigmund's
 * page can change the base message while the indicator runs, and both
 * pages remove it by stopping the timer and taking the element out.
 */
module LoadingIndicator {
  import opened Strings

  /** The dot count after one more tick: `(dotCount % 3) + 1`. */
  function NextDots(dotCount: nat): nat
  {
    (dotCount % 3) + 1
  }

  /** The dot count after `n` ticks from the start. */
  function DotsAfter(n: nat): nat
  {
    if n == 0 then 0 else NextDots(DotsAfter(n - 1))
  }

  /** The label for a base message and a dot count. */
  function Label(baseMessage: string, dotCount: nat): string
  {
    baseMessage + Repeat('.', dotCount)
  }

  /** The dots run 1, 2, 3, 1, 2, 3, ...: after `n > 0` ticks there are `((n - 1) % 3) + 1` of them. */
  lemma {:induction false} DotsCycle(n: nat)
    ensures DotsAfter(n) == if n == 0 then 0 else ((n - 1) % 3) + 1
  {
    if n > 1 {
      DotsCycle(n - 1);
      var k, r := (n - 2) / 3, (n - 2) % 3;
      assert n - 2 == 3 * k + r && 0 <= r < 3;
      if r < 2 {
        assert n - 1 == 3 * k + (r + 1);
        assert (n - 1) % 3 == r + 1;
      } else {
        assert n - 1 == 3 * (k + 1);
        assert (n - 1) % 3 == 0;
      }
    }
  }

  /** The label is the base message with between one and three dots once the timer has ticked. */
  lemma LabelShape(baseMessage: string, n: nat)
    requires n > 0
    ensures var l := Label(baseMessage, DotsAfter(n));
      && l[..|baseMessage|] == baseMessage
      && |baseMessage| + 1 <= |l| <= |baseMessage| + 3
      && forall i :: |baseMessage| <= i < |l| ==> l[i] == '.'
  {
    DotsCycle(n);
    var l := Label(baseMessage, DotsAfter(n));
    assert forall i :: |baseMessage| <= i < |l| ==> l[i] == Repeat('.', DotsAfter(n))[i - |baseMessage|];
  }

  /** The indicator element and its timer. */
  class Indicator {
    /** The message the dots follow. */
    var baseMessage: string
    /** `dotCount`. */
    var dotCount: nat
    /** The element's `innerText`. */
    var text: string
    /** Whether the timer is armed. */
    var ticking: bool
    /** Whether the element is in the page. */
    var attached: bool

    /** A new indicator: the base message without dots, the element in the page, the timer armed. */
    constructor (baseMessage: string)
      ensures this.baseMessage == baseMessage && text == baseMessage
      ensures dotCount == 0 && ticking && attached
    {
      this.baseMessage := baseMessage;
      dotCount := 0;
      text := baseMessage;
      ticking := true;
      attached := true;
    }

    /** `updateMessage`, run by the timer while it is armed. */
    method Tick()
      requires ticking
      modifies this
      ensures dotCount == NextDots(old(dotCount)) && text == Label(baseMessage, dotCount)
      ensures baseMessage == old(baseMessage) && ticking && attached == old(attached)
    {
      dotCount := (dotCount % 3) + 1;
      text := baseMessage + Repeat('.', dotCount);
    }

    /** `setBaseMessage`: only the base changes; the label follows on the next tick. */
    method SetBaseMessage(message: string)
      modifies this
      ensures baseMessage == message
      ensures dotCount == old(dotCount) && text == old(text)
      ensures ticking == old(ticking) && attached == old(attached)
    {
      baseMessage := message;
    }

    /** `removeLoadingIndicator`: the timer is cleared and the element taken out. */
    method Remove()
      modifies this
      ensures !ticking && !attached
      ensures baseMessage == old(baseMessage) && dotCount == old(dotCount) && text == old(text)
    {
      ticking := false;
      attached := false;
    }
  }
}

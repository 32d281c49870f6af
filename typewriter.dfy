/**
 * The typewriter effect: after a start delay, an interval shows ever longer
 * prefixes of the text, one more character per tick, and clears itself once
 * its index has passed the end of the text. A cursor is shown while the
 * displayed text differs from the full text.
 */
module Typewriter {

  function Min(a: int, b: int): int {
    if a <= b then a else b
  }

  /** `text.slice(0, n)`: the first `n` characters, or all of them when `n` passes the end. */
  function Slice(text: string, n: nat): (r: string)
    ensures |r| == Min(n, |text|)
    ensures r <= text
  {
    if n <= |text| then text[..n] else text
  }

  /** The cursor is rendered exactly when the displayed text is not yet the whole text. */
  predicate CursorVisible(displayedText: string, text: string) {
    displayedText != text
  }

  /** Later ticks extend earlier ones: the shown prefixes grow. */
  lemma SlicesGrow(text: string, j: nat, k: nat)
    requires j <= k
    ensures Slice(text, j) <= Slice(text, k)
  {
    var a, b := Slice(text, j), Slice(text, k);
    assert forall i :: 0 <= i < |a| ==> a[i] == text[i] == b[i];
  }

  /** After tick `k` the cursor is still shown exactly when `k` is less than the text's length. */
  lemma CursorUntilComplete(text: string, k: nat)
    ensures CursorVisible(Slice(text, k), text) <==> k < |text|
  {
    if k < |text| {
      assert |Slice(text, k)| != |text|;
    } else {
      assert Slice(text, k) == text;
    }
  }

  /** One typewriter instance: its props and the `displayedText` state cell. */
  class Typewriter {
    const text: string
    const delay: real
    var displayedText: string

    /**
     * A fresh instance with its props. The `delay` prop defaults to 0, and with that
     * default the guard fails, so `Effect` leaves the text empty.
     */
    constructor (text: string, delay: real)
      ensures this.text == text && this.delay == delay && displayedText == ""
    {
      this.text := text;
      this.delay := delay;
      displayedText := "";
    }

    /** The effect's guard: start only while nothing is shown and the delay is positive. */
    predicate WillStart()
      reads this
    {
      displayedText == "" && delay > 0.0
    }

    /**
     * The effect: when the guard holds, the delayed interval runs to
     * completion; `shown[k]` is the text displayed by tick `k + 1`. The run
     * takes exactly `|text| + 1` ticks and ends with the whole text shown.
     */
    method Effect() returns (shown: seq<string>)
      modifies this
      ensures old(WillStart()) ==>
                && |shown| == |text| + 1
                && (forall k :: 0 <= k < |shown| ==> shown[k] == Slice(text, k + 1))
                && displayedText == text
      ensures !old(WillStart()) ==> shown == [] && displayedText == old(displayedText)
    {
      shown := [];
      if !(displayedText == "" && delay > 0.0) {
        return;
      }
      var index := 0;
      var running := true;
      while running
        invariant 0 <= index <= |text| + 1
        invariant running <==> index <= |text|
        invariant |shown| == index
        invariant forall k :: 0 <= k < index ==> shown[k] == Slice(text, k + 1)
        invariant index > 0 ==> displayedText == Slice(text, index)
        decreases |text| + 1 - index
      {
        displayedText := Slice(text, index + 1);
        shown := shown + [displayedText];
        index := index + 1;
        if index > |text| {
          running := false;
        }
      }
    }
  }
}

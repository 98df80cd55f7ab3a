/**
 * The addressable LED strip as the animations see it: a fixed number of
 * pixels and the three commands clear, fill and show.  The strip records the
 * commands it receives, in order, and counts the shows, as the Catch2 mock of
 * the strip does; how the NeoPixel library turns them into pixel colours is
 * not part of this model.
 */
module NeoPixelStrip {

  /** One colour channel. */
  type Channel = x: int | 0 <= x < 256

  /** A colour as the (r, g, b) triple given to `strip.Color`. */
  datatype Rgb = Rgb(red: Channel, green: Channel, blue: Channel)

  /** One command sent to the strip. */
  datatype Action =
    | ClearCmd
    | FillCmd(color: Rgb, first: nat, count: nat)
    | ShowCmd

  /** Number of `show` commands in a command log. */
  function ShowCount(log: seq<Action>): (k: nat)
    ensures k <= |log|
  {
    if log == [] then 0
    else ShowCount(log[..|log| - 1]) + (if log[|log| - 1] == ShowCmd then 1 else 0)
  }

  /** The show count is the number of times a show occurs in the log. */
  lemma {:induction false} ShowCountIsMultiplicity(log: seq<Action>)
    ensures ShowCount(log) == multiset(log)[ShowCmd]
  {
    if log != [] {
      assert log == log[..|log| - 1] + [log[|log| - 1]];
      ShowCountIsMultiplicity(log[..|log| - 1]);
    }
  }

  /** Counting shows distributes over concatenation of logs. */
  lemma {:induction false} ShowCountAppend(a: seq<Action>, b: seq<Action>)
    ensures ShowCount(a + b) == ShowCount(a) + ShowCount(b)
  {
    if b == [] {
      assert a + b == a;
    } else {
      assert (a + b)[..|a + b| - 1] == a + b[..|b| - 1];
      ShowCountAppend(a, b[..|b| - 1]);
    }
  }

  /** A clear, a fill and a show: one show. */
  lemma ShowCountOfStep(a: Action, b: Action)
    requires a != ShowCmd && b != ShowCmd
    ensures ShowCount([a, b, ShowCmd]) == 1
    ensures ShowCount([a, ShowCmd]) == 1
  {
    assert [a][..0] == [];
    assert ShowCount([a]) == 0;
    assert [a, b][..1] == [a];
    assert ShowCount([a, b]) == 0;
    assert [a, b, ShowCmd][..2] == [a, b];
    assert [a, ShowCmd][..1] == [a];
  }

  /** Every fill in the log stays inside a strip of `numPixels` pixels. */
  ghost predicate FillsWithin(log: seq<Action>, numPixels: nat) {
    forall i :: 0 <= i < |log| && log[i].FillCmd? ==> log[i].first + log[i].count <= numPixels
  }

  class Strip {
    const numPixels: nat
    var actions: seq<Action>
    var numShow: nat

    /** The show counter agrees with the log. */
    ghost predicate Valid()
      reads this
    {
      numShow == ShowCount(actions)
    }

    constructor (n: nat)
      ensures Valid()
      ensures numPixels == n && actions == [] && numShow == 0
    {
      numPixels := n;
      actions := [];
      numShow := 0;
    }

    method Clear()
      requires Valid()
      modifies this
      ensures Valid()
      ensures actions == old(actions) + [ClearCmd] && numShow == old(numShow)
    {
      ShowCountAppend(actions, [ClearCmd]);
      actions := actions + [ClearCmd];
    }

    method Fill(color: Rgb, first: nat, count: nat)
      requires Valid()
      modifies this
      ensures Valid()
      ensures actions == old(actions) + [FillCmd(color, first, count)] && numShow == old(numShow)
    {
      ShowCountAppend(actions, [FillCmd(color, first, count)]);
      actions := actions + [FillCmd(color, first, count)];
    }

    method Show()
      requires Valid()
      modifies this
      ensures Valid()
      ensures actions == old(actions) + [ShowCmd] && numShow == old(numShow) + 1
    {
      ShowCountAppend(actions, [ShowCmd]);
      actions := actions + [ShowCmd];
      numShow := numShow + 1;
    }
  }
}

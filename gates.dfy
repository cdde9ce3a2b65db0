/**
 * The signal gates: each is a processor's `ProcessSignal`, a fold over the
 * input signals of one tick with a local accumulator. Each gate is a method
 * with the source's loop, proved equal to a specification function; the
 * specification functions carry the gate's meaning (a minimum, a maximum, a
 * clamped sum) as their contracts, and the lemmas below relate them to
 * reorderings of the inputs.
 */
module Gates {

  function Min(a: int, b: int): int
  {
    if a <= b then a else b
  }

  function Max(a: int, b: int): int
  {
    if a >= b then a else b
  }

  // ---------------------------------------------------------------------
  // AndGate: the minimum over the connected inputs, starting at 1.
  // ---------------------------------------------------------------------

  /**
   * The minimum of 1 and every input whose port is connected; inputs on
   * unconnected ports are skipped.
   */
  function AndOf(inputs: seq<int>, connected: seq<bool>): (r: int)
    requires |connected| == |inputs|
    ensures r <= 1
    ensures forall i :: 0 <= i < |inputs| && connected[i] ==> r <= inputs[i]
    ensures r == 1 || exists i :: 0 <= i < |inputs| && connected[i] && r == inputs[i]
  {
    if |inputs| == 0 then 1
    else
      var n := |inputs| - 1;
      var rest := AndOf(inputs[..n], connected[..n]);
      if connected[n] then Min(rest, inputs[n]) else rest
  }

  /** `AndGate.ProcessSignal`: the loop over the inputs, skipping unconnected ports. */
  method AndGate(inputs: seq<int>, connected: seq<bool>) returns (output: int)
    requires |connected| == |inputs|
    ensures output == AndOf(inputs, connected)
  {
    output := 1;
    for i := 0 to |inputs|
      invariant output == AndOf(inputs[..i], connected[..i])
    {
      assert inputs[..i + 1][..i] == inputs[..i];
      assert connected[..i + 1][..i] == connected[..i];
      if !connected[i] {
        continue;
      }
      output := Min(output, inputs[i]);
    }
    assert inputs[..|inputs|] == inputs;
    assert connected[..|inputs|] == connected;
  }

  /** The values on unconnected ports never matter. */
  lemma {:induction false} AndIgnoresUnconnected(a: seq<int>, b: seq<int>, connected: seq<bool>)
    requires |a| == |b| == |connected|
    requires forall i :: 0 <= i < |a| && connected[i] ==> a[i] == b[i]
    ensures AndOf(a, connected) == AndOf(b, connected)
  {
    if |a| > 0 {
      var n := |a| - 1;
      AndIgnoresUnconnected(a[..n], b[..n], connected[..n]);
    }
  }

  /** With no connected input the gate outputs 1, whatever the inputs hold. */
  lemma AndNoneConnected(inputs: seq<int>, connected: seq<bool>)
    requires |connected| == |inputs|
    requires forall i :: 0 <= i < |connected| ==> !connected[i]
    ensures AndOf(inputs, connected) == 1
  {
  }

  // ---------------------------------------------------------------------
  // MaxGate and OrGate: a maximum fold starting at 0.
  // ---------------------------------------------------------------------

  /** The largest of 0 and the inputs. */
  function MaxOf(inputs: seq<int>): (r: int)
    ensures r >= 0
    ensures forall i :: 0 <= i < |inputs| ==> r >= inputs[i]
    ensures r == 0 || exists i :: 0 <= i < |inputs| && r == inputs[i]
  {
    if |inputs| == 0 then 0
    else
      var n := |inputs| - 1;
      Max(MaxOf(inputs[..n]), inputs[n])
  }

  /** `MaxGate.ProcessSignal`. */
  method MaxGate(inputs: seq<int>) returns (output: int)
    ensures output == MaxOf(inputs)
  {
    output := 0;
    for i := 0 to |inputs|
      invariant output == MaxOf(inputs[..i])
    {
      assert inputs[..i + 1][..i] == inputs[..i];
      output := Max(output, inputs[i]);
    }
    assert inputs[..|inputs|] == inputs;
  }

  /** The maximum depends only on which values occur, not on their order. */
  lemma MaxPermutation(a: seq<int>, b: seq<int>)
    requires multiset(a) == multiset(b)
    ensures MaxOf(a) == MaxOf(b)
  {
    MaxBelow(a, b);
    MaxBelow(b, a);
  }

  lemma MaxBelow(a: seq<int>, b: seq<int>)
    requires multiset(a) == multiset(b)
    ensures MaxOf(a) <= MaxOf(b)
  {
    if MaxOf(a) != 0 {
      var i :| 0 <= i < |a| && MaxOf(a) == a[i];
      assert a[i] in multiset(b);
      var j :| 0 <= j < |b| && b[j] == a[i];
    }
  }

  /** `OrGate.ProcessSignal` (the legacy namespace): 1 when the maximum is positive. */
  function OrOf(inputs: seq<int>): (r: int)
    ensures r == 0 || r == 1
    ensures r == 1 <==> exists i :: 0 <= i < |inputs| && inputs[i] > 0
  {
    if MaxOf(inputs) > 0 then 1 else 0
  }

  /** The loop of `OrGate.ProcessSignal`, then its threshold. */
  method OrGate(inputs: seq<int>) returns (output: int)
    ensures output == OrOf(inputs)
  {
    var outputSignal := MaxGate(inputs);
    output := if outputSignal > 0 then 1 else 0;
  }

  lemma OrPermutation(a: seq<int>, b: seq<int>)
    requires multiset(a) == multiset(b)
    ensures OrOf(a) == OrOf(b)
  {
    MaxPermutation(a, b);
  }

  // ---------------------------------------------------------------------
  // Adder and XorGate: a sum fold starting at 0.
  // ---------------------------------------------------------------------

  function SumOf(inputs: seq<int>): int
  {
    if |inputs| == 0 then 0
    else
      var n := |inputs| - 1;
      SumOf(inputs[..n]) + inputs[n]
  }

  lemma {:induction false} SumConcat(a: seq<int>, b: seq<int>)
    ensures SumOf(a + b) == SumOf(a) + SumOf(b)
    decreases |b|
  {
    if |b| > 0 {
      var n := |b| - 1;
      assert (a + b)[..|a| + n] == a + b[..n];
      SumConcat(a, b[..n]);
    } else {
      assert a + b == a;
    }
  }

  /** Taking one element out lowers the sum by exactly that element. */
  lemma SumWithout(s: seq<int>, j: nat)
    requires j < |s|
    ensures SumOf(s) == SumOf(s[..j] + s[j + 1..]) + s[j]
  {
    assert s == s[..j] + ([s[j]] + s[j + 1..]);
    SumConcat(s[..j], [s[j]] + s[j + 1..]);
    SumConcat([s[j]], s[j + 1..]);
    assert SumOf([s[j]]) == s[j] by { assert [s[j]][..0] == []; }
    SumConcat(s[..j], s[j + 1..]);
  }

  /** The sum does not depend on the order of the inputs. */
  lemma {:induction false} SumPermutation(a: seq<int>, b: seq<int>)
    requires multiset(a) == multiset(b)
    ensures SumOf(a) == SumOf(b)
    decreases |a|
  {
    if |a| == 0 {
      assert |b| == |multiset(b)| == 0;
    } else {
      var n := |a| - 1;
      var x := a[n];
      assert a == a[..n] + [x];
      assert x in multiset(b);
      var j :| 0 <= j < |b| && b[j] == x;
      var rest := b[..j] + b[j + 1..];
      assert b == b[..j] + [x] + b[j + 1..];
      assert multiset(rest) == multiset(b) - multiset{x};
      assert multiset(a[..n]) == multiset(a) - multiset{x};
      SumPermutation(a[..n], rest);
      SumWithout(b, j);
    }
  }

  /** `Adder.ProcessSignal`: the sum of the inputs, capped at 15. */
  function AdderOf(inputs: seq<int>): (r: int)
    ensures r <= 15
    ensures SumOf(inputs) <= 15 ==> r == SumOf(inputs)
    ensures SumOf(inputs) > 15 ==> r == 15
  {
    Min(SumOf(inputs), 15)
  }

  method Adder(inputs: seq<int>) returns (output: int)
    ensures output == AdderOf(inputs)
  {
    var outputSignal := 0;
    for i := 0 to |inputs|
      invariant outputSignal == SumOf(inputs[..i])
    {
      assert inputs[..i + 1][..i] == inputs[..i];
      outputSignal := outputSignal + inputs[i];
    }
    assert inputs[..|inputs|] == inputs;
    output := Min(outputSignal, 15);
  }

  lemma AdderPermutation(a: seq<int>, b: seq<int>)
    requires multiset(a) == multiset(b)
    ensures AdderOf(a) == AdderOf(b)
  {
    SumPermutation(a, b);
  }

  /** `XorGate.ProcessSignal`: 1 exactly when the inputs add up to 1. */
  function XorOf(inputs: seq<int>): (r: int)
    ensures r == 0 || r == 1
    ensures r == 1 <==> SumOf(inputs) == 1
  {
    if SumOf(inputs) == 1 then 1 else 0
  }

  method XorGate(inputs: seq<int>) returns (output: int)
    ensures output == XorOf(inputs)
  {
    var outputSignal := 0;
    for i := 0 to |inputs|
      invariant outputSignal == SumOf(inputs[..i])
    {
      assert inputs[..i + 1][..i] == inputs[..i];
      outputSignal := outputSignal + inputs[i];
    }
    assert inputs[..|inputs|] == inputs;
    output := if outputSignal == 1 then 1 else 0;
  }

  predicate Binary(inputs: seq<int>)
  {
    forall i :: 0 <= i < |inputs| ==> inputs[i] == 0 || inputs[i] == 1
  }

  /** On 0/1 inputs the sum counts the ones. */
  lemma {:induction false} SumCountsOnes(inputs: seq<int>)
    requires Binary(inputs)
    ensures SumOf(inputs) == multiset(inputs)[1]
  {
    if |inputs| > 0 {
      var n := |inputs| - 1;
      assert inputs == inputs[..n] + [inputs[n]];
      SumCountsOnes(inputs[..n]);
    }
  }

  /** On 0/1 inputs the gate is an exclusive or: exactly one input is 1. */
  lemma XorOneHot(inputs: seq<int>)
    requires Binary(inputs)
    ensures XorOf(inputs) == 1 <==> multiset(inputs)[1] == 1
  {
    SumCountsOnes(inputs);
  }

  /** All-zero inputs, and so no inputs at all, give 0. */
  lemma XorAllZero(inputs: seq<int>)
    requires forall i :: 0 <= i < |inputs| ==> inputs[i] == 0
    ensures XorOf(inputs) == 0
  {
    SumCountsOnes(inputs);
    assert 1 !in multiset(inputs);
  }

  // ---------------------------------------------------------------------
  // NotGate and Subtracter: single expressions over fixed input slots.
  // ---------------------------------------------------------------------

  /** `NotGate.ProcessSignal`: reads only the first input. */
  function NotOf(inputs: seq<int>): (r: int)
    requires |inputs| >= 1
    ensures r >= 0
    ensures inputs[0] == 0 ==> r == 1
    ensures inputs[0] >= 1 ==> r == 0
    ensures inputs[0] <= 1 ==> r == 1 - inputs[0]
  {
    Max(1 - inputs[0], 0)
  }

  /** A larger input never gives a larger output. */
  lemma NotAntitone(a: seq<int>, b: seq<int>)
    requires |a| >= 1 && |b| >= 1 && a[0] <= b[0]
    ensures NotOf(b) <= NotOf(a)
  {
  }

  /** `Subtracter.ProcessSignal`: reads exactly the first three inputs. */
  function SubtracterOf(inputs: seq<int>): (r: int)
    requires |inputs| >= 3
    ensures r >= 0
    ensures inputs[0] - inputs[1] - inputs[2] >= 0 ==> r == inputs[0] - inputs[1] - inputs[2]
    ensures inputs[0] - inputs[1] - inputs[2] < 0 ==> r == 0
  {
    Max(inputs[0] - inputs[1] - inputs[2], 0)
  }

  /** Growing the minuend or shrinking a subtrahend never lowers the output. */
  lemma SubtracterMonotone(a: seq<int>, b: seq<int>)
    requires |a| >= 3 && |b| >= 3
    requires a[0] <= b[0] && a[1] >= b[1] && a[2] >= b[2]
    ensures SubtracterOf(a) <= SubtracterOf(b)
  {
  }

  /** Inputs after the third are never read. */
  lemma SubtracterReadsThree(a: seq<int>, b: seq<int>)
    requires |a| >= 3 && |b| >= 3 && a[..3] == b[..3]
    ensures SubtracterOf(a) == SubtracterOf(b)
  {
    assert a[0] == a[..3][0] && a[1] == a[..3][1] && a[2] == a[..3][2];
    assert b[0] == b[..3][0] && b[1] == b[..3][1] && b[2] == b[..3][2];
  }
}

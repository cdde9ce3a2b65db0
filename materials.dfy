/**
 * The materials stock: one `int` count per kind of material. Spending and
 * gaining add and subtract componentwise in unchecked 32-bit arithmetic,
 * so a count wraps around instead of failing; nothing stops a count from
 * going negative.
 */
module MaterialStock {

  const Int32Modulus: int := 0x1_0000_0000
  const Int32Min: int := -0x8000_0000

  predicate IsInt32(x: int)
  {
    Int32Min <= x < Int32Min + Int32Modulus
  }

  /** Every count of `s` is an `int`. */
  predicate AllInt32(s: seq<int>)
  {
    forall i :: 0 <= i < |s| ==> IsInt32(s[i])
  }

  /** The `int` that unchecked arithmetic leaves for the exact value `x`. */
  function Wrap32(x: int): (r: int)
    ensures IsInt32(r) && (x - r) % Int32Modulus == 0
    ensures IsInt32(x) ==> r == x
  {
    (x - Int32Min) % Int32Modulus + Int32Min
  }

  /** Wrapping one operand first does not change the wrapped sum. */
  lemma WrapFirst(x: int, y: int)
    ensures Wrap32(Wrap32(x) + y) == Wrap32(x + y)
  {
    var q := (x - Int32Min) / Int32Modulus;
    assert Wrap32(x) == x - q * Int32Modulus;
    ShiftMod(x + y - Int32Min, q);
  }

  lemma ShiftMod(z: int, q: int)
    ensures (z - q * Int32Modulus) % Int32Modulus == z % Int32Modulus
  {
    var r := z % Int32Modulus;
    assert z == (z / Int32Modulus) * Int32Modulus + r;
    assert z - q * Int32Modulus == (z / Int32Modulus - q) * Int32Modulus + r;
  }

  /** Every kind whose cost is given can be paid from the stock. */
  predicate Affordable(stock: seq<int>, costs: seq<int>)
    requires |costs| <= |stock|
  {
    forall i :: 0 <= i < |costs| ==> stock[i] >= costs[i]
  }

  /** The stock after paying `costs`: the first `|costs|` kinds each lose their cost, wrapping. */
  function Spent(stock: seq<int>, costs: seq<int>): (r: seq<int>)
    requires |costs| <= |stock|
    ensures |r| == |stock| && (AllInt32(stock) ==> AllInt32(r))
  {
    seq(|stock|, i requires 0 <= i < |stock| => if i < |costs| then Wrap32(stock[i] - costs[i]) else stock[i])
  }

  /** The stock after receiving `gains`: the first `|gains|` kinds each gain, wrapping. */
  function Gained(stock: seq<int>, gains: seq<int>): (r: seq<int>)
    requires |gains| <= |stock|
    ensures |r| == |stock| && (AllInt32(stock) ==> AllInt32(r))
  {
    seq(|stock|, i requires 0 <= i < |stock| => if i < |gains| then Wrap32(stock[i] + gains[i]) else stock[i])
  }

  /** Gaining back what was spent restores the stock. */
  lemma GainAfterSpend(stock: seq<int>, costs: seq<int>)
    requires |costs| <= |stock| && AllInt32(stock)
    ensures Gained(Spent(stock, costs), costs) == stock
  {
    var back := Gained(Spent(stock, costs), costs);
    forall i | 0 <= i < |costs|
      ensures back[i] == stock[i]
    {
      WrapFirst(stock[i] - costs[i], costs[i]);
    }
  }

  /** Spending what was gained restores the stock. */
  lemma SpendAfterGain(stock: seq<int>, gains: seq<int>)
    requires |gains| <= |stock| && AllInt32(stock)
    ensures Spent(Gained(stock, gains), gains) == stock
  {
    var back := Spent(Gained(stock, gains), gains);
    forall i | 0 <= i < |gains|
      ensures back[i] == stock[i]
    {
      WrapFirst(stock[i] + gains[i], -gains[i]);
    }
  }

  /**
   * Paying costs that are no larger than the stock, and not negative,
   * never wraps: each paid kind keeps exactly its count less its cost,
   * which is not negative, and the other kinds keep theirs.
   */
  lemma SpendAffordable(stock: seq<int>, costs: seq<int>)
    requires |costs| <= |stock| && AllInt32(stock) && Affordable(stock, costs)
    requires forall i :: 0 <= i < |costs| ==> costs[i] >= 0
    ensures forall i :: 0 <= i < |costs| ==> Spent(stock, costs)[i] == stock[i] - costs[i] >= 0
    ensures Spent(stock, costs)[|costs|..] == stock[|costs|..]
  {
  }
}

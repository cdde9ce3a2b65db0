/**
 * Recipes and recipe matching. A machine has input channels, each a fixed
 * row of slots that hold a resource or nothing; a recipe's ingredient asks
 * for an amount of one material on one channel. `GetFirstValidRecipe` scans
 * the book in order and answers the first recipe all of whose ingredients
 * are present, or -1.
 *
 * The functions here are the specification: `Count` and `IsValid` say what
 * "present" means, `FirstValid` what the scan answers, and `Take`/`TakeAll`
 * what the machine removes from its slots when it starts a recipe.
 */
module Recipes {

  /** An index into the game's material enumeration. */
  type Material = nat

  datatype Ingredient = Ingredient(materialType: Material, amount: int, channel: int)

  datatype Recipe = Recipe(ingredients: seq<Ingredient>, products: seq<Ingredient>, processingTicks: int)

  /** A resource item; only its material matters to recipes. */
  class Resource {
    const materialType: Material

    constructor (materialType: Material)
      ensures this.materialType == materialType
    {
      this.materialType := materialType;
    }
  }

  predicate Matches(r: Resource?, m: Material)
  {
    r != null && r.materialType == m
  }

  /** The number of slots holding a resource of material `m`. */
  function Count(slots: seq<Resource?>, m: Material): (n: nat)
    ensures n <= |slots|
  {
    if |slots| == 0 then 0
    else
      var k := |slots| - 1;
      Count(slots[..k], m) + (if Matches(slots[k], m) then 1 else 0)
  }

  /** Only slots holding a resource of the material count: the count is 0 exactly when none does. */
  lemma {:induction false} CountZero(slots: seq<Resource?>, m: Material)
    ensures Count(slots, m) == 0 <==> forall i :: 0 <= i < |slots| ==> !Matches(slots[i], m)
  {
    if |slots| > 0 {
      var k := |slots| - 1;
      CountZero(slots[..k], m);
      assert forall i :: 0 <= i < k ==> slots[..k][i] == slots[i];
    }
  }

  /** Emptying a slot, or filling it with another material, lowers the count by what the slot held. */
  lemma {:induction false} CountWithout(slots: seq<Resource?>, m: Material, i: nat, r: Resource?)
    requires i < |slots| && !Matches(r, m)
    ensures Count(slots[i := r], m) == Count(slots, m) - (if Matches(slots[i], m) then 1 else 0)
  {
    var k := |slots| - 1;
    if i < k {
      assert slots[i := r][..k] == slots[..k][i := r];
      CountWithout(slots[..k], m, i, r);
    } else {
      assert slots[i := r][..k] == slots[..k];
    }
  }

  /** Every ingredient names an input channel that exists. */
  predicate ChannelsExist(recipe: Recipe, channels: nat)
  {
    forall k :: 0 <= k < |recipe.ingredients| ==> 0 <= recipe.ingredients[k].channel < channels
  }

  predicate BookChannelsExist(book: seq<Recipe>, channels: nat)
  {
    forall i :: 0 <= i < |book| ==> ChannelsExist(book[i], channels)
  }

  predicate Present(ingredient: Ingredient, input: seq<seq<Resource?>>)
    requires 0 <= ingredient.channel < |input|
  {
    Count(input[ingredient.channel], ingredient.materialType) >= ingredient.amount
  }

  /** Every ingredient has at least its amount of its material on its channel. */
  predicate IsValid(recipe: Recipe, input: seq<seq<Resource?>>)
    requires ChannelsExist(recipe, |input|)
  {
    forall k :: 0 <= k < |recipe.ingredients| ==> Present(recipe.ingredients[k], input)
  }

  /** The index of the first valid recipe at or after `from`, or -1. */
  function FirstValidFrom(book: seq<Recipe>, input: seq<seq<Resource?>>, from: nat): (r: int)
    requires BookChannelsExist(book, |input|) && from <= |book|
    ensures r == -1 || from <= r < |book|
    ensures r >= 0 ==> IsValid(book[r], input)
    ensures r >= 0 ==> forall j :: from <= j < r ==> !IsValid(book[j], input)
    ensures r == -1 <==> forall j :: from <= j < |book| ==> !IsValid(book[j], input)
    decreases |book| - from
  {
    if from == |book| then -1
    else if IsValid(book[from], input) then from
    else FirstValidFrom(book, input, from + 1)
  }

  function FirstValid(book: seq<Recipe>, input: seq<seq<Resource?>>): (r: int)
    requires BookChannelsExist(book, |input|)
    ensures -1 <= r < |book|
    ensures r >= 0 ==> IsValid(book[r], input) && forall j :: 0 <= j < r ==> !IsValid(book[j], input)
    ensures r == -1 <==> forall j :: 0 <= j < |book| ==> !IsValid(book[j], input)
  {
    FirstValidFrom(book, input, 0)
  }

  /** A recipe without ingredients is always valid, so the scan never passes it. */
  lemma NoIngredientsValid(book: seq<Recipe>, input: seq<seq<Resource?>>, i: nat)
    requires BookChannelsExist(book, |input|) && i < |book| && book[i].ingredients == []
    ensures 0 <= FirstValid(book, input) <= i
  {
  }

  /** The contents of the input channels. */
  function Slots(input: seq<array<Resource?>>): (s: seq<seq<Resource?>>)
    reads input
    ensures |s| == |input|
    ensures forall c :: 0 <= c < |input| ==> s[c] == input[c][..]
  {
    if |input| == 0 then []
    else
      var n := |input| - 1;
      Slots(input[..n]) + [input[n][..]]
  }

  /** Counts the matching resources of one channel, as the inner loop of the scan does. */
  method CountChannel(slots: array<Resource?>, m: Material) returns (n: nat)
    ensures n == Count(slots[..], m)
  {
    n := 0;
    for i := 0 to slots.Length
      invariant n == Count(slots[..i], m)
    {
      assert slots[..i + 1][..i] == slots[..i];
      if slots[i] != null && slots[i].materialType == m {
        n := n + 1;
      }
    }
    assert slots[..slots.Length] == slots[..];
  }

  /**
   * What the ingredient loop of the scan decides about a recipe from its
   * `k`-th ingredient on: every ingredient present, one missing (the loop
   * breaks there), or an ingredient reached whose channel does not exist,
   * where the source's array access throws.
   */
  datatype Verdict = AllPresent | Missing | NoSuchChannel

  function CheckFrom(ingredients: seq<Ingredient>, input: seq<seq<Resource?>>, k: nat): (v: Verdict)
    requires k <= |ingredients|
    ensures v == AllPresent ==>
              forall j :: k <= j < |ingredients| ==> 0 <= ingredients[j].channel < |input| && Present(ingredients[j], input)
    ensures v == Missing ==>
              exists j :: k <= j < |ingredients| && 0 <= ingredients[j].channel < |input| && !Present(ingredients[j], input)
    ensures v == NoSuchChannel ==> exists j :: k <= j < |ingredients| && !(0 <= ingredients[j].channel < |input|)
    decreases |ingredients| - k
  {
    if k == |ingredients| then AllPresent
    else if !(0 <= ingredients[k].channel < |input|) then NoSuchChannel
    else if !Present(ingredients[k], input) then Missing
    else CheckFrom(ingredients, input, k + 1)
  }

  function Check(recipe: Recipe, input: seq<seq<Resource?>>): Verdict
  {
    CheckFrom(recipe.ingredients, input, 0)
  }

  /** Where every channel exists the loop never throws, and it finds all present exactly when the recipe is valid. */
  lemma CheckIsValid(recipe: Recipe, input: seq<seq<Resource?>>)
    requires ChannelsExist(recipe, |input|)
    ensures Check(recipe, input) != NoSuchChannel
    ensures Check(recipe, input) == AllPresent <==> IsValid(recipe, input)
  {
  }

  /** The scan's outcome: the index it returns (-1 for none), or the exception of a channel that does not exist. */
  datatype Scanned = Index(i: int) | Thrown

  /**
   * `RecipeBook.GetFirstValidRecipe` from recipe `from` on, as the source
   * runs it: each recipe is checked in turn until one has every ingredient
   * present or one reaches a channel that does not exist. Recipes after
   * the one that ends the scan are never looked at.
   */
  function Scan(book: seq<Recipe>, input: seq<seq<Resource?>>, from: nat): (r: Scanned)
    requires from <= |book|
    ensures r.Index? ==> r.i == -1 || from <= r.i < |book|
    ensures r.Index? && r.i >= 0 ==> ChannelsExist(book[r.i], |input|) && IsValid(book[r.i], input)
    ensures r.Index? ==> forall j :: from <= j < (if r.i == -1 then |book| else r.i) ==> Check(book[j], input) == Missing
    ensures r.Thrown? <==>
              exists j :: from <= j < |book| && Check(book[j], input) == NoSuchChannel
                          && forall j' :: from <= j' < j ==> Check(book[j'], input) == Missing
    decreases |book| - from
  {
    if from == |book| then Index(-1)
    else match Check(book[from], input)
      case AllPresent => Index(from)
      case Missing => Scan(book, input, from + 1)
      case NoSuchChannel => Thrown
  }

  /** Over a book whose channels all exist, the scan never throws and answers `FirstValid`. */
  lemma {:induction false} ScanIsFirstValid(book: seq<Recipe>, input: seq<seq<Resource?>>, from: nat)
    requires BookChannelsExist(book, |input|) && from <= |book|
    ensures Scan(book, input, from) == Index(FirstValidFrom(book, input, from))
    decreases |book| - from
  {
    if from < |book| {
      CheckIsValid(book[from], input);
      ScanIsFirstValid(book, input, from + 1);
    }
  }

  /**
   * The scan stops at its answer: whatever recipes follow the one it
   * returns, even ones naming channels that do not exist, the answer is
   * the same.
   */
  lemma {:induction false} ScanStopsAtAnswer(book: seq<Recipe>, rest: seq<Recipe>, input: seq<seq<Resource?>>, from: nat)
    requires from <= |book|
    requires Scan(book, input, from).Index? && Scan(book, input, from).i >= 0
    ensures var i := Scan(book, input, from).i;
      Scan(book[..i + 1] + rest, input, from) == Index(i)
    decreases |book| - from
  {
    var i := Scan(book, input, from).i;
    var longer := book[..i + 1] + rest;
    assert longer[from] == book[from];
    if from < i {
      ScanStopsAtAnswer(book, rest, input, from + 1);
    }
  }

  /**
   * `RecipeBook.GetFirstValidRecipe`: the scan, stopping at the first recipe
   * whose ingredients are all present, or at the first ingredient it reaches
   * on a channel that does not exist, where the source throws.
   */
  method GetFirstValidRecipe(book: seq<Recipe>, inputResources: seq<array<Resource?>>) returns (r: Scanned)
    ensures r == Scan(book, Slots(inputResources), 0)
  {
    ghost var input := Slots(inputResources);
    for i := 0 to |book|
      invariant Scan(book, input, 0) == Scan(book, input, i)
    {
      var recipe := book[i];
      var validRecipe := true;
      var k := 0;
      while k < |recipe.ingredients|
        invariant 0 <= k <= |recipe.ingredients|
        invariant validRecipe ==> Check(recipe, input) == CheckFrom(recipe.ingredients, input, k)
        invariant !validRecipe ==> Check(recipe, input) == Missing
        decreases |recipe.ingredients| - k, validRecipe
      {
        var ingredient := recipe.ingredients[k];
        if !(0 <= ingredient.channel < |inputResources|) {
          return Thrown;
        }
        var ingredientAmount := CountChannel(inputResources[ingredient.channel], ingredient.materialType);
        if ingredientAmount < ingredient.amount {
          validRecipe := false;
          break;
        }
        k := k + 1;
      }
      if validRecipe {
        return Index(i);
      }
    }
    return Index(-1);
  }

  // ---------------------------------------------------------------------
  // What starting a recipe removes from the slots.
  // ---------------------------------------------------------------------

  /**
   * The resources one ingredient takes from a channel: scanning the slots
   * in order, each resource of the material is taken until `amount` have been.
   */
  function Taken(slots: seq<Resource?>, m: Material, amount: int): (t: seq<Resource>)
    ensures forall i :: 0 <= i < |t| ==> t[i].materialType == m
  {
    if |slots| == 0 then []
    else
      var k := |slots| - 1;
      var before := Taken(slots[..k], m, amount);
      if |before| < amount && Matches(slots[k], m) then before + [slots[k]] else before
  }

  /** The slots after that ingredient: each taken resource's slot is emptied, the rest unchanged. */
  function AfterTake(slots: seq<Resource?>, m: Material, amount: int): (s: seq<Resource?>)
    ensures |s| == |slots|
  {
    if |slots| == 0 then []
    else
      var k := |slots| - 1;
      var before := AfterTake(slots[..k], m, amount);
      var take := |Taken(slots[..k], m, amount)| < amount && Matches(slots[k], m);
      assert (before + [if take then null else slots[k]])[..k] == before;
      before + [if take then null else slots[k]]
  }

  /** Each slot is either kept as it was or emptied, and only a slot holding the material is emptied. */
  lemma {:induction false} AfterTakeSlots(slots: seq<Resource?>, m: Material, amount: int)
    ensures var s := AfterTake(slots, m, amount);
      forall i :: 0 <= i < |s| ==> s[i] == slots[i] || (s[i] == null && Matches(slots[i], m))
  {
    if |slots| > 0 {
      var k := |slots| - 1;
      AfterTakeSlots(slots[..k], m, amount);
      var s := AfterTake(slots, m, amount);
      assert s[..k] == AfterTake(slots[..k], m, amount);
      assert forall i :: 0 <= i < k ==> slots[..k][i] == slots[i];
    }
  }

  /** An ingredient takes its amount, or every matching resource when there are fewer. */
  lemma {:induction false} TakenAmount(slots: seq<Resource?>, m: Material, amount: int)
    ensures |Taken(slots, m, amount)| == (if amount <= 0 then 0 else if amount < Count(slots, m) then amount else Count(slots, m))
  {
    if |slots| > 0 {
      TakenAmount(slots[..|slots| - 1], m, amount);
    }
  }

  /** The slots keep exactly the matching resources that were not taken. */
  lemma {:induction false} AfterTakeCount(slots: seq<Resource?>, m: Material, amount: int)
    ensures Count(AfterTake(slots, m, amount), m) == Count(slots, m) - |Taken(slots, m, amount)|
  {
    if |slots| > 0 {
      var k := |slots| - 1;
      AfterTakeCount(slots[..k], m, amount);
      var after := AfterTake(slots, m, amount);
      var take := |Taken(slots[..k], m, amount)| < amount && Matches(slots[k], m);
      assert after == AfterTake(slots[..k], m, amount) + [if take then null else slots[k]];
      assert after[..k] == AfterTake(slots[..k], m, amount);
      assert Count(after, m) == Count(after[..k], m) + (if take then 0 else if Matches(slots[k], m) then 1 else 0);
      assert |Taken(slots, m, amount)| == |Taken(slots[..k], m, amount)| + (if take then 1 else 0);
      assert Count(slots, m) == Count(slots[..k], m) + (if Matches(slots[k], m) then 1 else 0);
      assert Count(after, m) == Count(slots, m) - |Taken(slots, m, amount)|;
    } else {
      assert Count(AfterTake(slots, m, amount), m) == 0;
      assert |Taken(slots, m, amount)| == 0;
    }
  }

  /** The resources left in a row of slots. */
  function Held(slots: seq<Resource?>): multiset<Resource>
  {
    if |slots| == 0 then multiset{}
    else
      var k := |slots| - 1;
      Held(slots[..k]) + (if slots[k] == null then multiset{} else multiset{slots[k]})
  }

  /** Taking moves resources; none is lost or duplicated. */
  lemma {:induction false} TakeConserves(slots: seq<Resource?>, m: Material, amount: int)
    ensures Held(AfterTake(slots, m, amount)) + multiset(Taken(slots, m, amount)) == Held(slots)
  {
    if |slots| > 0 {
      TakeConserves(slots[..|slots| - 1], m, amount);
      TakeLastConserves(slots, m, amount);
    }
  }

  /** The step of `TakeConserves`: what holds for all slots but the last holds with the last. */
  lemma TakeLastConserves(slots: seq<Resource?>, m: Material, amount: int)
    requires |slots| > 0
    requires var prefix := slots[..|slots| - 1];
      Held(AfterTake(prefix, m, amount)) + multiset(Taken(prefix, m, amount)) == Held(prefix)
    ensures Held(AfterTake(slots, m, amount)) + multiset(Taken(slots, m, amount)) == Held(slots)
  {
    var k := |slots| - 1;
    var before, after := AfterTake(slots[..k], m, amount), AfterTake(slots, m, amount);
    var taken := Taken(slots[..k], m, amount);
    var take := |taken| < amount && Matches(slots[k], m);
    assert after == before + [if take then null else slots[k]];
    assert after[..k] == before;
    var x: multiset<Resource> := if slots[k] == null then multiset{} else multiset{slots[k]};
    assert Held(slots) == Held(slots[..k]) + x;
    if take {
      assert Held(after) == Held(before);
      assert multiset(Taken(slots, m, amount)) == multiset(taken) + x;
    } else {
      assert Held(after) == Held(before) + x;
      assert Taken(slots, m, amount) == taken;
    }
    AddToBoth(Held(before), multiset(taken), Held(slots[..k]), x);
  }

  /** Once `amount` resources are taken, the remaining slots are left alone. */
  lemma {:induction false} TakeSaturated(slots: seq<Resource?>, m: Material, amount: int, i: nat)
    requires i <= |slots| && |Taken(slots[..i], m, amount)| >= amount
    ensures Taken(slots, m, amount) == Taken(slots[..i], m, amount)
    ensures AfterTake(slots, m, amount) == AfterTake(slots[..i], m, amount) + slots[i..]
    decreases |slots| - i
  {
    if i < |slots| {
      assert slots[..i + 1] == slots[..i] + [slots[i]];
      TakeSaturatedAppend(slots[..i], slots[i], m, amount);
      TakeSaturated(slots, m, amount, i + 1);
      AppendDrop(AfterTake(slots[..i], m, amount), slots, i);
    } else {
      assert slots[..i] == slots;
    }
  }

  /** One slot past saturation: nothing more is taken and the slot is kept. */
  lemma TakeSaturatedAppend(prefix: seq<Resource?>, r: Resource?, m: Material, amount: int)
    requires |Taken(prefix, m, amount)| >= amount
    ensures Taken(prefix + [r], m, amount) == Taken(prefix, m, amount)
    ensures AfterTake(prefix + [r], m, amount) == AfterTake(prefix, m, amount) + [r]
  {
    var next := prefix + [r];
    assert next[..|prefix|] == prefix;
  }

  /** Applies the ingredients `ingredients[..upTo]` in turn: the channels afterwards and everything taken, in order. */
  function TakeAll(input: seq<seq<Resource?>>, ingredients: seq<Ingredient>, upTo: nat): (r: (seq<seq<Resource?>>, seq<Resource>))
    requires upTo <= |ingredients|
    requires forall k :: 0 <= k < |ingredients| ==> 0 <= ingredients[k].channel < |input|
    ensures |r.0| == |input|
  {
    if upTo == 0 then (input, [])
    else
      var before := TakeAll(input, ingredients, upTo - 1);
      var ingredient := ingredients[upTo - 1];
      var slots := before.0[ingredient.channel];
      (before.0[ingredient.channel := AfterTake(slots, ingredient.materialType, ingredient.amount)],
       before.1 + Taken(slots, ingredient.materialType, ingredient.amount))
  }

  /** The first `n + 1` ingredients: the first `n`, then the `n`-th one's take from its channel. */
  lemma TakeAllNext(input: seq<seq<Resource?>>, ingredients: seq<Ingredient>, n: nat)
    requires n < |ingredients|
    requires forall k :: 0 <= k < |ingredients| ==> 0 <= ingredients[k].channel < |input|
    ensures var before, ingredient := TakeAll(input, ingredients, n), ingredients[n];
      var slots := before.0[ingredient.channel];
      TakeAll(input, ingredients, n + 1) ==
        (before.0[ingredient.channel := AfterTake(slots, ingredient.materialType, ingredient.amount)],
         before.1 + Taken(slots, ingredient.materialType, ingredient.amount))
  {
  }

  /** Everything the ingredients take has the material of one of them. */
  lemma TakeAllMaterials(input: seq<seq<Resource?>>, ingredients: seq<Ingredient>, upTo: nat)
    requires upTo <= |ingredients|
    requires forall k :: 0 <= k < |ingredients| ==> 0 <= ingredients[k].channel < |input|
    ensures forall r :: r in TakeAll(input, ingredients, upTo).1 ==>
      exists k :: 0 <= k < upTo && r.materialType == ingredients[k].materialType
  {
    for n := 0 to upTo
      invariant forall r :: r in TakeAll(input, ingredients, n).1 ==>
        exists k :: 0 <= k < n && r.materialType == ingredients[k].materialType
    {
      TakeNextMaterials(input, ingredients, n, TakeAll(input, ingredients, n));
    }
  }

  /** The step of `TakeAllMaterials`: the next ingredient takes only its own material. */
  lemma TakeNextMaterials(input: seq<seq<Resource?>>, ingredients: seq<Ingredient>, n: nat,
                          before: (seq<seq<Resource?>>, seq<Resource>))
    requires n < |ingredients|
    requires forall k :: 0 <= k < |ingredients| ==> 0 <= ingredients[k].channel < |input|
    requires before == TakeAll(input, ingredients, n)
    requires forall r :: r in before.1 ==> exists k :: 0 <= k < n && r.materialType == ingredients[k].materialType
    ensures forall r :: r in TakeAll(input, ingredients, n + 1).1 ==>
      exists k :: 0 <= k < n + 1 && r.materialType == ingredients[k].materialType
  {
    var ingredient := ingredients[n];
    var t := Taken(before.0[ingredient.channel], ingredient.materialType, ingredient.amount);
    assert TakeAll(input, ingredients, n + 1).1 == before.1 + t;
    forall r | r in before.1 + t
      ensures exists k :: 0 <= k < n + 1 && r.materialType == ingredients[k].materialType
    {
      if r in t {
        var i :| 0 <= i < |t| && t[i] == r;
        assert r.materialType == ingredients[n].materialType;
      }
    }
  }

  function HeldAll(input: seq<seq<Resource?>>): multiset<Resource>
  {
    if |input| == 0 then multiset{}
    else
      var n := |input| - 1;
      HeldAll(input[..n]) + Held(input[n])
  }

  /** Replacing one channel's slots swaps what that channel held for what the new slots hold. */
  lemma {:induction false} HeldAllUpdate(input: seq<seq<Resource?>>, c: nat, slots: seq<Resource?>)
    requires c < |input|
    ensures HeldAll(input[c := slots]) + Held(input[c]) == HeldAll(input) + Held(slots)
  {
    var n := |input| - 1;
    if c < n {
      HeldAllUpdate(input[..n], c, slots);
      HeldAllUpdateLast(input, c, slots);
    } else {
      assert input[c := slots][..n] == input[..n];
      AddToBoth(HeldAll(input[..n]), Held(slots), HeldAll(input[..n]) + Held(slots), Held(input[n]));
      AddToBoth(HeldAll(input[..n]), Held(input[n]), HeldAll(input[..n]) + Held(input[n]), Held(slots));
    }
  }

  /** The step of `HeldAllUpdate` when the replaced channel is not the last one. */
  lemma HeldAllUpdateLast(input: seq<seq<Resource?>>, c: nat, slots: seq<Resource?>)
    requires c < |input| - 1
    requires var prefix := input[..|input| - 1];
      HeldAll(prefix[c := slots]) + Held(prefix[c]) == HeldAll(prefix) + Held(slots)
    ensures HeldAll(input[c := slots]) + Held(input[c]) == HeldAll(input) + Held(slots)
  {
    var n := |input| - 1;
    assert input[c := slots][..n] == input[..n][c := slots];
    assert input[..n][c] == input[c];
    AddToBoth(HeldAll(input[..n][c := slots]), Held(input[c]), HeldAll(input[..n]) + Held(slots), Held(input[n]));
    AddToBoth(HeldAll(input[..n]), Held(slots), HeldAll(input[..n]) + Held(slots), Held(input[n]));
  }

  /** One ingredient's take, seen across all channels: nothing is lost or duplicated. */
  lemma TakeOneConserves(input: seq<seq<Resource?>>, c: nat, m: Material, amount: int)
    requires c < |input|
    ensures HeldAll(input[c := AfterTake(input[c], m, amount)]) + multiset(Taken(input[c], m, amount)) == HeldAll(input)
  {
    var after := AfterTake(input[c], m, amount);
    TakeConserves(input[c], m, amount);
    HeldAllUpdate(input, c, after);
    Exchange(HeldAll(input[c := after]), Held(input[c]), HeldAll(input), Held(after), multiset(Taken(input[c], m, amount)));
  }

  /** Starting a recipe moves resources from the slots to the machine: together they hold what the slots held. */
  lemma TakeAllConserves(input: seq<seq<Resource?>>, ingredients: seq<Ingredient>, upTo: nat)
    requires upTo <= |ingredients|
    requires forall k :: 0 <= k < |ingredients| ==> 0 <= ingredients[k].channel < |input|
    ensures HeldAll(TakeAll(input, ingredients, upTo).0) + multiset(TakeAll(input, ingredients, upTo).1) == HeldAll(input)
  {
    for n := 0 to upTo
      invariant HeldAll(TakeAll(input, ingredients, n).0) + multiset(TakeAll(input, ingredients, n).1) == HeldAll(input)
    {
      TakeNextConserves(input, ingredients, n, TakeAll(input, ingredients, n));
    }
  }

  /** The step of `TakeAllConserves`: if the first `n` ingredients conserve resources, so do the first `n + 1`. */
  lemma TakeNextConserves(input: seq<seq<Resource?>>, ingredients: seq<Ingredient>, n: nat,
                          before: (seq<seq<Resource?>>, seq<Resource>))
    requires n < |ingredients|
    requires forall k :: 0 <= k < |ingredients| ==> 0 <= ingredients[k].channel < |input|
    requires before == TakeAll(input, ingredients, n)
    requires HeldAll(before.0) + multiset(before.1) == HeldAll(input)
    ensures HeldAll(TakeAll(input, ingredients, n + 1).0) + multiset(TakeAll(input, ingredients, n + 1).1) == HeldAll(input)
  {
    var ingredient := ingredients[n];
    var slots := before.0[ingredient.channel];
    var after := before.0[ingredient.channel := AfterTake(slots, ingredient.materialType, ingredient.amount)];
    var taken := Taken(slots, ingredient.materialType, ingredient.amount);
    assert TakeAll(input, ingredients, n + 1) == (after, before.1 + taken);
    TakeOneConserves(before.0, ingredient.channel, ingredient.materialType, ingredient.amount);
    assert multiset(before.1 + taken) == multiset(before.1) + multiset(taken);
    Regroup(HeldAll(after), multiset(taken), HeldAll(before.0), multiset(before.1), HeldAll(input));
  }

  /** Appending `s[i]` and then the rest of `s` appends `s[i..]`. */
  lemma AppendDrop<T>(a: seq<T>, s: seq<T>, i: nat)
    requires i < |s|
    ensures (a + [s[i]]) + s[i + 1..] == a + s[i..]
  {
    assert s[i..] == [s[i]] + s[i + 1..];
  }

  /** Multiset bookkeeping for one exchange: `u` is `b` with `s` swapped for `a`, and `s` is `a` plus `t`. */
  lemma Exchange<T>(u: multiset<T>, s: multiset<T>, b: multiset<T>, a: multiset<T>, t: multiset<T>)
    requires u + s == b + a && a + t == s
    ensures u + t == b
  {
    forall o
      ensures (u + t)[o] == b[o]
    {
      assert (u + s)[o] == (b + a)[o] && (a + t)[o] == s[o];
    }
    assert u + t == b;
  }

  /** Multiset bookkeeping for chaining two moves. */
  lemma Regroup<T>(u: multiset<T>, t: multiset<T>, b: multiset<T>, kept: multiset<T>, total: multiset<T>)
    requires u + t == b && b + kept == total
    ensures u + (kept + t) == total
  {
  }

  /** Multiset bookkeeping for one more slot, whichever side it lands on. */
  lemma AddToBoth<T>(a: multiset<T>, t: multiset<T>, h: multiset<T>, x: multiset<T>)
    requires a + t == h
    ensures a + (t + x) == h + x && (a + x) + t == h + x
  {
  }

}

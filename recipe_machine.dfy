/**
 * A machine that runs recipes from its recipe book. It is a small state
 * machine: idle (`currentRecipeIndex == -1`) it starts the first valid
 * recipe, moving the ingredients out of its input slots; running, it counts
 * ticks until the recipe's processing time is reached and then turns the
 * ingredients into products, one list per output channel. A new recipe only
 * starts once every product has left the machine.
 *
 * The input slots and the output step belong to the machine base class:
 * the slots are the `inputResources` arrays, and the output step is the
 * parameter `tryOutput` (given a channel and its product list, the list left
 * after the conveyor took what it could).
 */
module RecipeMachines {
  import opened Recipes

  /** The materials of a list of resources, in order. */
  function Materials(rs: seq<Resource>): (ms: seq<Material>)
    ensures |ms| == |rs|
    ensures forall i :: 0 <= i < |rs| ==> ms[i] == rs[i].materialType
  {
    if |rs| == 0 then [] else Materials(rs[..|rs| - 1]) + [rs[|rs| - 1].materialType]
  }

  /** `n` times material `m`; nothing when `n` is not positive. */
  function Repeat(m: Material, n: int): (r: seq<Material>)
    ensures |r| == (if n < 0 then 0 else n)
    ensures forall i :: 0 <= i < |r| ==> r[i] == m
  {
    if n <= 0 then [] else Repeat(m, n - 1) + [m]
  }

  /** The materials a recipe's products add to output channel `c`, in the order they are made. */
  function Produced(products: seq<Ingredient>, c: int): seq<Material>
  {
    if |products| == 0 then []
    else
      var n := |products| - 1;
      Produced(products[..n], c) + (if products[n].channel == c then Repeat(products[n].materialType, products[n].amount) else [])
  }

  /** What a channel's product list becomes in the output step: an empty list is not offered. */
  function OutputStep(c: nat, list: seq<Resource>, tryOutput: (nat, seq<Resource>) -> seq<Resource>): seq<Resource>
  {
    if |list| == 0 then list else tryOutput(c, list)
  }

  /** Every product ingredient names an output channel that exists. */
  predicate ProductsFit(recipe: Recipe, outputs: nat)
  {
    forall k :: 0 <= k < |recipe.products| ==> 0 <= recipe.products[k].channel < outputs
  }

  predicate BookProductsFit(book: seq<Recipe>, outputs: nat)
  {
    forall i :: 0 <= i < |book| ==> ProductsFit(book[i], outputs)
  }

  /** Some product with a positive amount puts material `m` on channel `c`. */
  predicate MadeBy(products: seq<Ingredient>, c: int, m: Material)
  {
    exists k :: 0 <= k < |products| && products[k].channel == c && products[k].amount > 0 && products[k].materialType == m
  }

  /** Everything a channel receives is a product of that channel with a positive amount. */
  lemma {:induction false} ProducedFromProducts(products: seq<Ingredient>, c: int)
    ensures forall i :: 0 <= i < |Produced(products, c)| ==> MadeBy(products, c, Produced(products, c)[i])
  {
    if |products| > 0 {
      var n := |products| - 1;
      ProducedFromProducts(products[..n], c);
      var before := Produced(products[..n], c);
      var extra := if products[n].channel == c then Repeat(products[n].materialType, products[n].amount) else [];
      var all := Produced(products, c);
      assert all == before + extra;
      forall i | 0 <= i < |all|
        ensures MadeBy(products, c, all[i])
      {
        if i < |before| {
          assert all[i] == before[i];
          assert MadeBy(products[..n], c, before[i]);
          var k :| 0 <= k < n && products[..n][k].channel == c && products[..n][k].amount > 0 &&
            products[..n][k].materialType == before[i];
          assert products[k] == products[..n][k];
        } else {
          assert all[i] == extra[i - |before|];
          assert products[n].materialType == all[i];
        }
      }
    }
  }

  /** A channel that no product names receives nothing. */
  lemma {:induction false} ProducedNothing(products: seq<Ingredient>, c: int)
    requires forall k :: 0 <= k < |products| ==> products[k].channel != c || products[k].amount <= 0
    ensures Produced(products, c) == []
  {
    if |products| > 0 {
      ProducedNothing(products[..|products| - 1], c);
    }
  }

  /** A product the output lists can take: one that makes nothing, or one whose channel exists. */
  predicate Fits(product: Ingredient, outputs: nat)
  {
    product.amount <= 0 || 0 <= product.channel < outputs
  }

  /**
   * The first product from `k` on that makes something on an output channel
   * that does not exist, where `FinishRecipe` throws; `|products|` when
   * there is none.
   */
  function FirstMisfitFrom(products: seq<Ingredient>, outputs: nat, k: nat): (n: nat)
    requires k <= |products|
    ensures k <= n <= |products|
    ensures forall j :: k <= j < n ==> Fits(products[j], outputs)
    ensures n < |products| ==> !Fits(products[n], outputs)
    decreases |products| - k
  {
    if k == |products| || !Fits(products[k], outputs) then k else FirstMisfitFrom(products, outputs, k + 1)
  }

  function FirstMisfit(products: seq<Ingredient>, outputs: nat): nat
  {
    FirstMisfitFrom(products, outputs, 0)
  }

  /** Finishing `recipe` throws: one of its products makes something on an output channel that does not exist. */
  predicate Misfits(recipe: Recipe, outputs: nat)
  {
    FirstMisfit(recipe.products, outputs) < |recipe.products|
  }

  /** A recipe whose product channels all exist never throws when it finishes: every product is made. */
  lemma FitMakesAll(recipe: Recipe, outputs: nat)
    requires ProductsFit(recipe, outputs)
    ensures !Misfits(recipe, outputs) && recipe.products[..FirstMisfit(recipe.products, outputs)] == recipe.products
  {
    FitFrom(recipe.products, outputs, 0);
  }

  /** From `k` on, products whose channels all exist leave nothing to throw on. */
  lemma {:induction false} FitFrom(products: seq<Ingredient>, outputs: nat, k: nat)
    requires k <= |products| && forall j :: 0 <= j < |products| ==> 0 <= products[j].channel < outputs
    ensures FirstMisfitFrom(products, outputs, k) == |products|
    decreases |products| - k
  {
    if k < |products| {
      FitFrom(products, outputs, k + 1);
    }
  }

  class RecipeMachine {
    const recipeBook: seq<Recipe>
    /** The machine's input channels, each a fixed row of slots. */
    const inputResources: seq<array<Resource?>>
    /** One product list per output channel. */
    const producedResources: array<seq<Resource>>
    var currentRecipeIndex: int
    var currentProcessingTicks: int
    var ingredientResources: seq<Resource>

    /** The state every operation relies on: the current recipe is one of the book's, and no two input channels share slots. */
    ghost predicate Valid()
      reads this
    {
      -1 <= currentRecipeIndex < |recipeBook| &&
      currentProcessingTicks >= 0 &&
      forall i, j :: 0 <= i < j < |inputResources| ==> inputResources[i] != inputResources[j]
    }

    /** An idle machine with an empty product list per output. Any book will do; a bad channel only throws when it is reached. */
    constructor (recipeBook: seq<Recipe>, inputResources: seq<array<Resource?>>, numberOfOutputs: nat)
      requires forall i, j :: 0 <= i < j < |inputResources| ==> inputResources[i] != inputResources[j]
      ensures Valid()
      ensures this.recipeBook == recipeBook && this.inputResources == inputResources
      ensures currentRecipeIndex == -1 && currentProcessingTicks == 0 && ingredientResources == []
      ensures fresh(producedResources) && producedResources.Length == numberOfOutputs
      ensures forall c :: 0 <= c < producedResources.Length ==> producedResources[c] == []
    {
      this.recipeBook := recipeBook;
      this.inputResources := inputResources;
      producedResources := new seq<Resource>[numberOfOutputs](_ => []);
      currentRecipeIndex := -1;
      currentProcessingTicks := 0;
      ingredientResources := [];
    }

    /** The slots' contents, channel by channel. */
    ghost function Input(): seq<seq<Resource?>>
      reads this, inputResources
    {
      Slots(inputResources)
    }

    /**
     * The state `StartRecipe` leaves, from slots `input0`, ingredient list
     * `held0`, recipe index `index0` and tick count `ticks0`: nothing changes
     * when the scan throws or finds no recipe; otherwise the recipe found runs
     * from tick 0 and `TakeAll` moves its ingredients out of the slots.
     */
    ghost predicate StartedFrom(input0: seq<seq<Resource?>>, held0: seq<Resource>, index0: int, ticks0: int)
      reads this, inputResources
    {
      var s := Scan(recipeBook, input0, 0);
      if s.Thrown? || s.i == -1 then
        currentRecipeIndex == index0 && currentProcessingTicks == ticks0 &&
        ingredientResources == held0 && Input() == input0
      else
        var moved := TakeAll(input0, recipeBook[s.i].ingredients, |recipeBook[s.i].ingredients|);
        currentRecipeIndex == s.i && currentProcessingTicks == 0 &&
        ingredientResources == held0 + moved.1 && Input() == moved.0
    }

    /** A start loses and duplicates no resource: the slots and the ingredient list together hold what they held. */
    lemma StartConserves(input0: seq<seq<Resource?>>, held0: seq<Resource>, index0: int, ticks0: int)
      requires StartedFrom(input0, held0, index0, ticks0)
      ensures HeldAll(Input()) + multiset(ingredientResources) == HeldAll(input0) + multiset(held0)
    {
      var s := Scan(recipeBook, input0, 0);
      if !(s.Thrown? || s.i == -1) {
        var ingredients := recipeBook[s.i].ingredients;
        TakeAllConserves(input0, ingredients, |ingredients|);
      }
    }

    /**
     * One tick: count a tick of the running recipe and finish it when its
     * time is reached; offer every non-empty product list to the output;
     * then, idle and with every product list empty, start the first valid
     * recipe. `thrown` is the source's exception: finishing a recipe with a
     * product on an output channel that does not exist, or a scan that
     * reaches an input channel that does not exist; the tick stops there.
     * `made` holds the resources a finishing recipe appended to each list.
     */
    method ProcessMachine(tryOutput: (nat, seq<Resource>) -> seq<Resource>) returns (thrown: bool, ghost made: seq<seq<Resource>>)
      requires Valid()
      modifies this`currentRecipeIndex, this`currentProcessingTicks, this`ingredientResources, producedResources, inputResources
      ensures Valid()
      ensures |made| == producedResources.Length
      ensures forall c, i :: 0 <= c < |made| && 0 <= i < |made[c]| ==> fresh(made[c][i])
      ensures var finished := old(currentRecipeIndex) != -1 &&
          old(currentProcessingTicks) + 1 >= recipeBook[old(currentRecipeIndex)].processingTicks;
        forall c :: 0 <= c < producedResources.Length ==>
          Materials(made[c]) ==
            if finished then
              var products := recipeBook[old(currentRecipeIndex)].products;
              Produced(products[..FirstMisfit(products, producedResources.Length)], c)
            else []
      ensures var finished := old(currentRecipeIndex) != -1 &&
          old(currentProcessingTicks) + 1 >= recipeBook[old(currentRecipeIndex)].processingTicks;
        old(currentRecipeIndex) != -1 && !finished ==>
          !thrown &&
          currentRecipeIndex == old(currentRecipeIndex) && currentProcessingTicks == old(currentProcessingTicks) + 1 &&
          ingredientResources == old(ingredientResources) && Input() == old(Input()) &&
          forall c :: 0 <= c < producedResources.Length ==>
            producedResources[c] == OutputStep(c, old(producedResources[c]), tryOutput)
      ensures var finished := old(currentRecipeIndex) != -1 &&
          old(currentProcessingTicks) + 1 >= recipeBook[old(currentRecipeIndex)].processingTicks;
        finished && Misfits(recipeBook[old(currentRecipeIndex)], producedResources.Length) ==>
          thrown && currentRecipeIndex == old(currentRecipeIndex) && currentProcessingTicks == old(currentProcessingTicks) + 1 &&
          ingredientResources == [] && Input() == old(Input()) &&
          forall c :: 0 <= c < producedResources.Length ==> producedResources[c] == old(producedResources[c]) + made[c]
      ensures var finished := old(currentRecipeIndex) != -1 &&
          old(currentProcessingTicks) + 1 >= recipeBook[old(currentRecipeIndex)].processingTicks;
        var held := if finished then [] else old(ingredientResources);
        var ticks := if finished then old(currentProcessingTicks) + 1 else old(currentProcessingTicks);
        (old(currentRecipeIndex) == -1 || (finished && !Misfits(recipeBook[old(currentRecipeIndex)], producedResources.Length))) ==>
          && (forall c :: 0 <= c < producedResources.Length ==>
                producedResources[c] == OutputStep(c, old(producedResources[c]) + made[c], tryOutput))
          && if exists c :: 0 <= c < producedResources.Length && producedResources[c] != [] then
               !thrown && currentRecipeIndex == -1 && currentProcessingTicks == ticks &&
               ingredientResources == held && Input() == old(Input())
             else
               (thrown <==> Scan(recipeBook, old(Input()), 0).Thrown?) &&
               StartedFrom(old(Input()), held, -1, ticks)
    {
      thrown, made := Advance();
      if thrown {
        return;
      }
      ghost var lists := producedResources[..];
      OutputAll(tryOutput);
      assert forall c :: 0 <= c < producedResources.Length ==> producedResources[c] == OutputStep(c, lists[c], tryOutput);
      if currentRecipeIndex == -1 {
        thrown := StartWhenEmpty();
      }
    }

    /**
     * The recipe step of `ProcessMachine`: a running recipe counts a tick,
     * and finishes once its time is reached; `thrown` when finishing throws.
     * `made` holds the resources the finish appended to each product list.
     */
    method Advance() returns (thrown: bool, ghost made: seq<seq<Resource>>)
      requires Valid()
      modifies this`currentRecipeIndex, this`currentProcessingTicks, this`ingredientResources, producedResources
      ensures Valid() && Input() == old(Input())
      ensures |made| == producedResources.Length
      ensures forall c :: 0 <= c < producedResources.Length ==> producedResources[c] == old(producedResources[c]) + made[c]
      ensures forall c, i :: 0 <= c < |made| && 0 <= i < |made[c]| ==> fresh(made[c][i])
      ensures var finished := old(currentRecipeIndex) != -1 &&
          old(currentProcessingTicks) + 1 >= recipeBook[old(currentRecipeIndex)].processingTicks;
        && (old(currentRecipeIndex) != -1 && !finished ==>
              && !thrown
              && currentRecipeIndex == old(currentRecipeIndex) && currentProcessingTicks == old(currentProcessingTicks) + 1
              && ingredientResources == old(ingredientResources) && producedResources[..] == old(producedResources[..])
              && forall c :: 0 <= c < producedResources.Length ==> made[c] == [])
        && (old(currentRecipeIndex) == -1 ==>
              && !thrown && currentRecipeIndex == -1 && currentProcessingTicks == old(currentProcessingTicks)
              && ingredientResources == old(ingredientResources) && producedResources[..] == old(producedResources[..])
              && forall c :: 0 <= c < producedResources.Length ==> made[c] == [])
        && (finished ==>
              && (thrown <==> Misfits(recipeBook[old(currentRecipeIndex)], producedResources.Length))
              && currentRecipeIndex == (if thrown then old(currentRecipeIndex) else -1)
              && currentProcessingTicks == old(currentProcessingTicks) + 1
              && ingredientResources == []
              && var products := recipeBook[old(currentRecipeIndex)].products;
                 forall c :: 0 <= c < producedResources.Length ==>
                   Materials(made[c]) == Produced(products[..FirstMisfit(products, producedResources.Length)], c))
    {
      thrown := false;
      made := seq(producedResources.Length, _ => []);
      if currentRecipeIndex != -1 {
        currentProcessingTicks := currentProcessingTicks + 1;
        if currentProcessingTicks >= recipeBook[currentRecipeIndex].processingTicks {
          thrown, made := FinishRecipe();
        }
      }
    }

    /**
     * The start step of `ProcessMachine` for an idle machine: a recipe
     * starts unless a product list still waits; `thrown` when the scan
     * throws.
     */
    method StartWhenEmpty() returns (thrown: bool)
      requires Valid() && currentRecipeIndex == -1
      modifies this`currentRecipeIndex, this`currentProcessingTicks, this`ingredientResources, inputResources
      ensures Valid()
      ensures if exists c :: 0 <= c < producedResources.Length && producedResources[c] != [] then
            !thrown && currentRecipeIndex == -1 && currentProcessingTicks == old(currentProcessingTicks) &&
            ingredientResources == old(ingredientResources) && Input() == old(Input())
          else
            (thrown <==> Scan(recipeBook, old(Input()), 0).Thrown?) &&
            StartedFrom(old(Input()), old(ingredientResources), -1, old(currentProcessingTicks))
    {
      var c := 0;
      while c < producedResources.Length
        invariant 0 <= c <= producedResources.Length
        invariant forall c' :: 0 <= c' < c ==> producedResources[c'] == []
      {
        if |producedResources[c]| > 0 {
          return false;
        }
        c := c + 1;
      }
      thrown := StartRecipe();
    }

    /** The output step: every non-empty product list is offered to its channel's output. */
    method OutputAll(tryOutput: (nat, seq<Resource>) -> seq<Resource>)
      modifies producedResources
      ensures forall c :: 0 <= c < producedResources.Length ==>
        producedResources[c] == OutputStep(c, old(producedResources[c]), tryOutput)
    {
      for channel := 0 to producedResources.Length
        invariant forall c :: 0 <= c < channel ==>
          producedResources[c] == OutputStep(c, old(producedResources[c]), tryOutput)
        invariant forall c :: channel <= c < producedResources.Length ==> producedResources[c] == old(producedResources[c])
      {
        if |producedResources[channel]| == 0 {
          continue;
        }
        producedResources[channel] := tryOutput(channel, producedResources[channel]);
      }
    }

    /**
     * Starts the first valid recipe, if any: the processing time restarts
     * and each ingredient in turn moves up to its amount of matching
     * resources from its channel, scanning the slots in order, to the
     * ingredient list. With no valid recipe, or when the scan throws,
     * nothing changes.
     */
    method StartRecipe() returns (thrown: bool)
      requires Valid()
      modifies this`currentRecipeIndex, this`currentProcessingTicks, this`ingredientResources, inputResources
      ensures Valid()
      ensures thrown <==> Scan(recipeBook, old(Input()), 0).Thrown?
      ensures StartedFrom(old(Input()), old(ingredientResources), old(currentRecipeIndex), old(currentProcessingTicks))
    {
      var recipeIndex := GetFirstValidRecipe(recipeBook, inputResources);
      if recipeIndex.Thrown? {
        return true;
      }
      if recipeIndex.i != -1 {
        Start(recipeIndex.i);
      }
      thrown := false;
    }

    /** The start of recipe `r` once it is chosen: the processing time restarts and its ingredients are taken. */
    method Start(r: int)
      requires Valid() && 0 <= r < |recipeBook| && ChannelsExist(recipeBook[r], |inputResources|)
      modifies this`currentRecipeIndex, this`currentProcessingTicks, this`ingredientResources, inputResources
      ensures Valid()
      ensures var moved := TakeAll(old(Input()), recipeBook[r].ingredients, |recipeBook[r].ingredients|);
        currentRecipeIndex == r && currentProcessingTicks == 0 &&
        ingredientResources == old(ingredientResources) + moved.1 && Input() == moved.0
    {
      currentRecipeIndex := r;
      currentProcessingTicks := 0;
      TakeIngredients(recipeBook[r].ingredients);
    }

    /** The ingredients in turn, each taking from the slots the previous ones left. */
    method TakeIngredients(ingredients: seq<Ingredient>)
      requires Valid()
      requires forall k :: 0 <= k < |ingredients| ==> 0 <= ingredients[k].channel < |inputResources|
      modifies this`ingredientResources, inputResources
      ensures var moved := TakeAll(old(Input()), ingredients, |ingredients|);
        ingredientResources == old(ingredientResources) + moved.1 && Input() == moved.0
    {
      ghost var input := Input();
      ghost var held := ingredientResources;
      for k := 0 to |ingredients|
        invariant Input() == TakeAll(input, ingredients, k).0
        invariant ingredientResources == held + TakeAll(input, ingredients, k).1
      {
        TakeNext(input, held, ingredients, k);
      }
    }

    /** One turn of the loop of `TakeIngredients`: ingredient `k` takes from the slots the first `k` left. */
    method TakeNext(ghost input: seq<seq<Resource?>>, ghost held: seq<Resource>, ingredients: seq<Ingredient>, k: nat)
      requires forall i, j :: 0 <= i < j < |inputResources| ==> inputResources[i] != inputResources[j]
      requires forall k :: 0 <= k < |ingredients| ==> 0 <= ingredients[k].channel < |inputResources|
      requires k < |ingredients| && |input| == |inputResources|
      requires Input() == TakeAll(input, ingredients, k).0
      requires ingredientResources == held + TakeAll(input, ingredients, k).1
      modifies this`ingredientResources, inputResources
      ensures Input() == TakeAll(input, ingredients, k + 1).0
      ensures ingredientResources == held + TakeAll(input, ingredients, k + 1).1
    {
      ghost var before := TakeAll(input, ingredients, k);
      var ingredient := ingredients[k];
      ghost var slots := before.0[ingredient.channel];
      assert inputResources[ingredient.channel][..] == slots;
      TakeIngredient(ingredient);
      ghost var after := TakeAll(input, ingredients, k + 1);
      TakeAllNext(input, ingredients, k);
      ghost var taken := Taken(slots, ingredient.materialType, ingredient.amount);
      assert ingredientResources == (held + before.1) + taken;
      assert after.1 == before.1 + taken;
      AppendAssoc(held, before.1, taken);
      assert Input() == after.0 by {
        forall c | 0 <= c < |inputResources|
          ensures Input()[c] == after.0[c]
        {
          assert c != ingredient.channel ==> inputResources[c] != inputResources[ingredient.channel];
        }
      }
    }

    /** One ingredient: moves up to `amount` resources of its material from its channel, nulling their slots. */
    method TakeIngredient(ingredient: Ingredient)
      requires 0 <= ingredient.channel < |inputResources|
      modifies this`ingredientResources, inputResources[ingredient.channel]
      ensures ingredientResources == old(ingredientResources) +
        Taken(old(inputResources[ingredient.channel][..]), ingredient.materialType, ingredient.amount)
      ensures inputResources[ingredient.channel][..] ==
        AfterTake(old(inputResources[ingredient.channel][..]), ingredient.materialType, ingredient.amount)
    {
      var slots := inputResources[ingredient.channel];
      ghost var s := slots[..];
      ghost var held := ingredientResources;
      var m, amount := ingredient.materialType, ingredient.amount;
      var ingredientAmount := 0;
      var i := 0;
      while i < slots.Length && ingredientAmount < amount
        invariant 0 <= i <= slots.Length
        invariant slots[..] == AfterTake(s[..i], m, amount) + s[i..]
        invariant ingredientResources == held + Taken(s[..i], m, amount)
        invariant ingredientAmount == |Taken(s[..i], m, amount)|
      {
        var took := TakeSlot(slots, s, held, m, amount, i);
        if took {
          ingredientAmount := ingredientAmount + 1;
        }
        i := i + 1;
      }
      if i < slots.Length {
        TakeSaturated(s, m, amount, i);
      } else {
        assert s[..i] == s;
      }
    }

    /** One slot of the scan of `TakeIngredient`: slot `i` gives up its resource when that is of material `m`. */
    method TakeSlot(slots: array<Resource?>, ghost s: seq<Resource?>, ghost held: seq<Resource>, m: Material, amount: int, i: nat)
        returns (took: bool)
      requires i < slots.Length == |s| && |Taken(s[..i], m, amount)| < amount
      requires slots[..] == AfterTake(s[..i], m, amount) + s[i..]
      requires ingredientResources == held + Taken(s[..i], m, amount)
      modifies this`ingredientResources, slots
      ensures slots[..] == AfterTake(s[..i + 1], m, amount) + s[i + 1..]
      ensures ingredientResources == held + Taken(s[..i + 1], m, amount)
      ensures |Taken(s[..i + 1], m, amount)| == |Taken(s[..i], m, amount)| + (if took then 1 else 0)
    {
      TakeStep(s, m, amount, i);
      var resource := slots[i];
      took := resource != null && m == resource.materialType;
      if took {
        ingredientResources := ingredientResources + [resource];
        SetAt(AfterTake(s[..i], m, amount), s, i, null);
        slots[i] := null;
      } else {
        AppendDrop(AfterTake(s[..i], m, amount), s, i);
      }
    }

    /**
     * Finishes the running recipe: the ingredients are consumed, each
     * product adds `amount` new resources of its material to its output
     * channel's list, and the machine becomes idle. A product that makes
     * something on an output channel that does not exist throws: the
     * products before it have been made, and the machine stays on the
     * recipe.
     */
    method FinishRecipe() returns (thrown: bool, ghost made: seq<seq<Resource>>)
      requires Valid() && currentRecipeIndex != -1
      modifies this`ingredientResources, this`currentRecipeIndex, producedResources
      ensures Valid()
      ensures ingredientResources == []
      ensures thrown <==> Misfits(recipeBook[old(currentRecipeIndex)], producedResources.Length)
      ensures currentRecipeIndex == (if thrown then old(currentRecipeIndex) else -1)
      ensures |made| == producedResources.Length
      ensures var products := recipeBook[old(currentRecipeIndex)].products;
        forall c :: 0 <= c < producedResources.Length ==>
          producedResources[c] == old(producedResources[c]) + made[c] &&
          Materials(made[c]) == Produced(products[..FirstMisfit(products, producedResources.Length)], c)
      ensures forall c, i :: 0 <= c < |made| && 0 <= i < |made[c]| ==> fresh(made[c][i])
    {
      ingredientResources := [];
      thrown, made := AddAllProducts(recipeBook[currentRecipeIndex].products);
      if !thrown {
        currentRecipeIndex := -1;
      }
    }

    /**
     * Every product in turn, each appending its new resources to its
     * channel's list, up to the first one whose channel does not exist,
     * where the source throws.
     */
    method AddAllProducts(products: seq<Ingredient>) returns (thrown: bool, ghost made: seq<seq<Resource>>)
      modifies producedResources
      ensures thrown <==> FirstMisfit(products, producedResources.Length) < |products|
      ensures |made| == producedResources.Length
      ensures forall c :: 0 <= c < producedResources.Length ==>
        producedResources[c] == old(producedResources[c]) + made[c] &&
        Materials(made[c]) == Produced(products[..FirstMisfit(products, producedResources.Length)], c)
      ensures forall c, i :: 0 <= c < |made| && 0 <= i < |made[c]| ==> fresh(made[c][i])
    {
      ghost var n := FirstMisfit(products, producedResources.Length);
      made := seq(producedResources.Length, _ => []);
      for k := 0 to |products|
        invariant k <= n
        invariant |made| == producedResources.Length
        invariant forall c :: 0 <= c < producedResources.Length ==>
          producedResources[c] == old(producedResources[c]) + made[c] && Materials(made[c]) == Produced(products[..k], c)
        invariant forall c, i :: 0 <= c < |made| && 0 <= i < |made[c]| ==> fresh(made[c][i])
      {
        var product := products[k];
        if !Fits(product, producedResources.Length) {
          assert k == n;
          return true, made;
        }
        made := AddNext(products, k, old(producedResources[..]), made);
      }
      assert products[..|products|] == products;
      thrown := false;
    }

    /** One turn of the loop of `AddAllProducts`: product `k` appends its resources, and `made` records them. */
    method AddNext(products: seq<Ingredient>, k: nat, ghost base: seq<seq<Resource>>, ghost made: seq<seq<Resource>>)
        returns (ghost made': seq<seq<Resource>>)
      requires k < |products| && Fits(products[k], producedResources.Length)
      requires |made| == |base| == producedResources.Length
      requires forall c :: 0 <= c < producedResources.Length ==>
        producedResources[c] == base[c] + made[c] && Materials(made[c]) == Produced(products[..k], c)
      modifies producedResources
      ensures |made'| == producedResources.Length
      ensures forall c :: 0 <= c < producedResources.Length ==>
        producedResources[c] == base[c] + made'[c] && Materials(made'[c]) == Produced(products[..k + 1], c)
      ensures forall c, i :: 0 <= c < |made'| && 0 <= i < |made'[c]| ==> fresh(made'[c][i]) || made'[c][i] in made[c]
    {
      var product := products[k];
      ghost var more := AddProducts(product);
      ProducedNext(products, k);
      made' := made;
      if product.amount > 0 {
        MaterialsAppend(made[product.channel], more);
        AppendAssoc(base[product.channel], made[product.channel], more);
        made' := made[product.channel := made[product.channel] + more];
      }
    }

    /** One product: `amount` new resources of its material at the end of its channel's list; nothing when `amount` is not positive. */
    method AddProducts(product: Ingredient) returns (ghost more: seq<Resource>)
      requires Fits(product, producedResources.Length)
      modifies producedResources
      ensures product.amount <= 0 ==> more == [] && producedResources[..] == old(producedResources[..])
      ensures forall c :: 0 <= c < producedResources.Length && c != product.channel ==>
        producedResources[c] == old(producedResources[c])
      ensures product.amount > 0 ==> producedResources[product.channel] == old(producedResources[product.channel]) + more
      ensures Materials(more) == Repeat(product.materialType, product.amount)
      ensures forall i :: 0 <= i < |more| ==> fresh(more[i])
    {
      var c := product.channel;
      more := [];
      var i := 0;
      while i < product.amount
        invariant 0 <= i && (i == 0 || i <= product.amount) && |more| == i
        invariant i > 0 ==> 0 <= c < producedResources.Length
        invariant forall c' :: 0 <= c' < producedResources.Length && c' != c ==> producedResources[c'] == old(producedResources[c'])
        invariant 0 <= c < producedResources.Length ==> producedResources[c] == old(producedResources[c]) + more
        invariant forall j :: 0 <= j < i ==> more[j].materialType == product.materialType && fresh(more[j])
      {
        var resource := new Resource(product.materialType);
        producedResources[c] := producedResources[c] + [resource];
        more := more + [resource];
        i := i + 1;
      }
    }

    /** Empties the ingredient list and every product list. */
    method DropInventory()
      modifies this`ingredientResources, producedResources
      ensures ingredientResources == []
      ensures forall c :: 0 <= c < producedResources.Length ==> producedResources[c] == []
    {
      ingredientResources := [];
      for c := 0 to producedResources.Length
        invariant ingredientResources == []
        invariant forall c' :: 0 <= c' < c ==> producedResources[c'] == []
      {
        producedResources[c] := [];
      }
    }
  }

  /** The materials the first `k + 1` products add: those of the first `k`, then the `k`-th product's. */
  lemma ProducedNext(products: seq<Ingredient>, k: nat)
    requires k < |products|
    ensures forall c :: (Produced(products[..k + 1], c) ==
      Produced(products[..k], c) + (if products[k].channel == c then Repeat(products[k].materialType, products[k].amount) else []))
  {
    assert products[..k + 1][..k] == products[..k];
  }

  /** One more slot scanned: it is taken exactly when fewer than `amount` were taken so far and it matches. */
  lemma TakeStep(s: seq<Resource?>, m: Material, amount: int, i: nat)
    requires i < |s|
    ensures var take := |Taken(s[..i], m, amount)| < amount && Matches(s[i], m);
      Taken(s[..i + 1], m, amount) == Taken(s[..i], m, amount) + (if take then [s[i]] else []) &&
      AfterTake(s[..i + 1], m, amount) == AfterTake(s[..i], m, amount) + [if take then null else s[i]]
  {
    assert s[..i + 1][..i] == s[..i];
  }

  /** The materials of two lists one after the other. */
  lemma MaterialsAppend(a: seq<Resource>, b: seq<Resource>)
    ensures Materials(a + b) == Materials(a) + Materials(b)
  {
  }

  lemma AppendAssoc<T>(a: seq<T>, b: seq<T>, c: seq<T>)
    ensures (a + b) + c == a + (b + c)
  {
  }

  /** Overwriting the first element after `a` in `a + s[i..]`. */
  lemma SetAt<T>(a: seq<T>, s: seq<T>, i: nat, v: T)
    requires i < |s|
    ensures (a + s[i..])[|a| := v] == (a + [v]) + s[i + 1..]
  {
  }
}

/**
 * crafts.py: the `RECIPES` table, `check_craft` (check every ingredient first, then
 * consume them, grant the product and log the recipe's thought) and `use_item`.
 * Both operations change a main.py `Game` in place; `CraftOutcome` and `UseOutcome`
 * give the state and message they produce.
 */
module Crafts {

  import opened Options
  import opened Counters
  import opened Numbers
  import Logbook
  import Stories
  import opened MainGame

  /**
   * One recipe: its ingredients in dictionary order with their counts, the item it
   * makes, its description and the thought it logs (`""` where it has none).
   */
  datatype Recipe = Recipe(
    ingredients: seq<(string, int)>,
    result: string,
    description: string,
    triggerThought: string)

  const Recipes: map<string, Recipe> := map[
    "факел" := Recipe([("ветка", 1)], "факел", "Простой факел для освещения.",
                      "Мысль: Теперь можно экипировать факел?")
  ]

  const NoSuchRecipe := "Нет такого рецепта."
  const NotEnoughIngredients := "Недостаточно ингредиентов."
  const NoSuchItem := "Нет такого предмета."
  const CannotUse := "Предмет не может быть использован."
  const AteBerries := "Вы съели ягоды. Сытость улучшилась."
  const Berries := "ягоды"

  /** The state an operation leaves and the message it returns. */
  datatype Outcome = Outcome(state: GameState, message: string)

  /** Dictionary keys are distinct, so no ingredient is listed twice. */
  ghost predicate DistinctNames(ings: seq<(string, int)>) {
    forall i, j :: 0 <= i < j < |ings| ==> ings[i].0 != ings[j].0
  }

  /** The `all(...)` test of `check_craft`: every ingredient count (missing = 0) suffices. */
  predicate Sufficient(c: Counter, ings: seq<(string, int)>) {
    forall i :: 0 <= i < |ings| ==> Get(c, ings[i].0) >= ings[i].1
  }

  /** The counter after `c[ing] -= count` for each ingredient in turn. */
  function Consume(c: Counter, ings: seq<(string, int)>): Counter {
    if ings == [] then c
    else
      var last := ings[|ings| - 1];
      Add(Consume(c, ings[..|ings| - 1]), last.0, -last.1)
  }

  /** How much of `k` the ingredient list asks for in all. */
  function Required(ings: seq<(string, int)>, k: string): int {
    if ings == [] then 0
    else
      var last := ings[|ings| - 1];
      Required(ings[..|ings| - 1], k) + (if last.0 == k then last.1 else 0)
  }

  /** `check_craft(game, name)`. */
  function CraftOutcome(s: GameState, name: string): Outcome {
    if name !in Recipes then Outcome(s, NoSuchRecipe)
    else if !Sufficient(s.inventory, Recipes[name].ingredients) then Outcome(s, NotEnoughIngredients)
    else Crafted(s, Recipes[name])
  }

  /** The effect of a recipe whose ingredients suffice. */
  function Crafted(s: GameState, recipe: Recipe): Outcome {
    var made := s.(inventory := Add(Consume(s.inventory, recipe.ingredients), recipe.result, 1),
                   resourceCounters := Add(s.resourceCounters, recipe.result, 1));
    var logged := if recipe.triggerThought != "" then WithLog(made, recipe.triggerThought) else made;
    Outcome(logged, "Скрафчено: " + recipe.result)
  }

  /** `use_item(game, item)`. */
  function UseOutcome(s: GameState, item: string): Outcome {
    if item !in s.inventory.counts || Get(s.inventory, item) < 1 then Outcome(s, NoSuchItem)
    else if item == Berries then AfterEating(Eaten(s))
    else Outcome(s, CannotUse)
  }

  /** The state once a berry is eaten, before the trigger check. */
  function Eaten(s: GameState): GameState {
    s.(hunger := Max(0, s.hunger - 20),
       inventory := Add(s.inventory, Berries, -1),
       resourceCounters := Add(s.resourceCounters, Berries, -1))
  }

  /** The trigger check after eating: an event that fires starts and supplies the message. */
  function AfterEating(eaten: GameState): Outcome {
    match Stories.TriggerEvent(eaten.day, eaten.ap, eaten.resourceCounters)
    case Some(e) => Outcome(eaten.(storyState := Some(e.name)), e.text)
    case None => Outcome(eaten, AteBerries)
  }

  method CheckCraft(game: Game, name: string) returns (message: string)
    modifies game
    ensures Outcome(game.State(), message) == CraftOutcome(old(game.State()), name)
  {
    ghost var s0 := game.State();
    if name !in Recipes {
      return NoSuchRecipe;
    }
    var recipe := Recipes[name];
    if !Sufficient(game.inventory, recipe.ingredients) {
      return NotEnoughIngredients;
    }
    assert CraftOutcome(s0, name) == Crafted(s0, recipe);
    message := Consummate(game, recipe);
  }

  /** The effect of `check_craft` once the check has passed. */
  method Consummate(game: Game, recipe: Recipe) returns (message: string)
    modifies game
    ensures Outcome(game.State(), message) == Crafted(old(game.State()), recipe)
  {
    ConsumeIngredients(game, recipe.ingredients);
    game.inventory := Add(game.inventory, recipe.result, 1);
    game.resourceCounters := Add(game.resourceCounters, recipe.result, 1);
    if recipe.triggerThought != "" {
      game.AddLog(recipe.triggerThought);
    }
    message := "Скрафчено: " + recipe.result;
  }

  /** The loop `for ing, count in ...: game.inventory[ing] -= count`. */
  method ConsumeIngredients(game: Game, ings: seq<(string, int)>)
    modifies game
    ensures game.State() == old(game.State()).(inventory := Consume(old(game.inventory), ings))
  {
    var i := 0;
    while i < |ings|
      invariant 0 <= i <= |ings|
      invariant game.State() == old(game.State()).(inventory := Consume(old(game.inventory), ings[..i]))
    {
      assert ings[..i + 1][..i] == ings[..i];
      game.inventory := Add(game.inventory, ings[i].0, -ings[i].1);
      i := i + 1;
    }
    assert ings[..i] == ings;
  }

  method UseItem(game: Game, item: string) returns (message: string)
    modifies game
    ensures Outcome(game.State(), message) == UseOutcome(old(game.State()), item)
  {
    ghost var s0 := game.State();
    if item !in game.inventory.counts || Get(game.inventory, item) < 1 {
      message := NoSuchItem;
    } else if item == Berries {
      assert UseOutcome(s0, item) == AfterEating(Eaten(s0));
      message := EatBerries(game);
    } else {
      message := CannotUse;
    }
  }

  /** The berry branch of `use_item`: eat one, then look for an event to start. */
  method EatBerries(game: Game) returns (message: string)
    modifies game
    ensures Outcome(game.State(), message) == AfterEating(Eaten(old(game.State())))
  {
    game.hunger := Max(0, game.hunger - 20);
    game.inventory := Add(game.inventory, Berries, -1);
    game.resourceCounters := Add(game.resourceCounters, Berries, -1);
    assert game.State() == Eaten(old(game.State()));
    var event := Stories.TriggerEvent(game.day, game.ap, game.resourceCounters);
    if event.Some? {
      game.storyState := Some(event.value.name);
      message := event.value.text;
    } else {
      message := AteBerries;
    }
  }

  /** Consuming takes from each item exactly what the list asks for in all. */
  lemma {:induction false} ConsumeCounts(c: Counter, ings: seq<(string, int)>, k: string)
    ensures Get(Consume(c, ings), k) == Get(c, k) - Required(ings, k)
    decreases |ings|
  {
    if ings != [] {
      ConsumeCounts(c, ings[..|ings| - 1], k);
    }
  }

  /** The ingredient names of the list. */
  function Names(ings: seq<(string, int)>): set<string> {
    if ings == [] then {} else Names(ings[..|ings| - 1]) + {ings[|ings| - 1].0}
  }

  /** Consuming adds no key of its own beyond the ingredient names. */
  lemma {:induction false} ConsumeKeys(c: Counter, ings: seq<(string, int)>)
    ensures Valid(c) ==> Valid(Consume(c, ings))
    ensures Consume(c, ings).counts.Keys == c.counts.Keys + Names(ings)
    decreases |ings|
  {
    if ings != [] {
      var front := ings[..|ings| - 1];
      ConsumeKeys(c, front);
      if Valid(c) {
        AddValid(Consume(c, front), ings[|ings| - 1].0, -ings[|ings| - 1].1);
      }
    }
  }

  /** A name the list does not mention is asked for 0 times. */
  lemma {:induction false} RequiredAbsent(ings: seq<(string, int)>, k: string)
    requires forall i :: 0 <= i < |ings| ==> ings[i].0 != k
    ensures Required(ings, k) == 0
    decreases |ings|
  {
    if ings != [] {
      RequiredAbsent(ings[..|ings| - 1], k);
    }
  }

  /** With distinct names, the list asks for ingredient `i` exactly its own count. */
  lemma {:induction false} RequiredAt(ings: seq<(string, int)>, i: nat)
    requires DistinctNames(ings) && i < |ings|
    ensures Required(ings, ings[i].0) == ings[i].1
    decreases |ings|
  {
    var front := ings[..|ings| - 1];
    if i == |ings| - 1 {
      RequiredAbsent(front, ings[i].0);
    } else {
      RequiredAt(front, i);
    }
  }

  /** With distinct names and enough of everything, no count is asked for more than it has. */
  lemma RequiredWithinStock(c: Counter, ings: seq<(string, int)>, k: string)
    requires DistinctNames(ings) && Sufficient(c, ings) && Get(c, k) >= 0
    ensures Required(ings, k) <= Get(c, k)
  {
    if i :| 0 <= i < |ings| && ings[i].0 == k {
      RequiredAt(ings, i);
    } else {
      RequiredAbsent(ings, k);
    }
  }

  lemma RecipesWellFormed()
    ensures forall name :: name in Recipes ==> DistinctNames(Recipes[name].ingredients)
    ensures forall name :: name in Recipes ==> Recipes[name].result in KnownItems
  {
  }

  /** An unknown recipe changes nothing and says so. */
  lemma CraftUnknown(s: GameState, name: string)
    requires name !in Recipes
    ensures CraftOutcome(s, name) == Outcome(s, NoSuchRecipe)
  {
  }

  /** A known recipe short of any ingredient changes nothing, the log included. */
  lemma CraftInsufficient(s: GameState, name: string, i: nat)
    requires name in Recipes && i < |Recipes[name].ingredients|
    requires Get(s.inventory, Recipes[name].ingredients[i].0) < Recipes[name].ingredients[i].1
    ensures CraftOutcome(s, name) == Outcome(s, NotEnoughIngredients)
  {
  }

  /**
   * A successful craft takes exactly its recipe count of each ingredient, adds exactly one
   * result item to the inventory and to its counter, logs the recipe's thought and names
   * the result; nothing else changes.
   */
  lemma CraftSuccess(s: GameState, name: string)
    requires name in Recipes && Sufficient(s.inventory, Recipes[name].ingredients)
    ensures var r := Recipes[name];
            var o := CraftOutcome(s, name);
            && (forall i :: 0 <= i < |r.ingredients| && r.ingredients[i].0 != r.result ==>
                  Get(o.state.inventory, r.ingredients[i].0) == Get(s.inventory, r.ingredients[i].0) - r.ingredients[i].1)
            && Get(o.state.inventory, r.result) == Get(s.inventory, r.result) - Required(r.ingredients, r.result) + 1
            && (forall k :: k != r.result ==> Get(o.state.inventory, k) == Get(s.inventory, k) - Required(r.ingredients, k))
            && Get(o.state.resourceCounters, r.result) == Get(s.resourceCounters, r.result) + 1
            && (forall k :: k != r.result ==> Get(o.state.resourceCounters, k) == Get(s.resourceCounters, k))
            && o.state.log == (if r.triggerThought != "" then Logbook.Append(s.log, r.triggerThought) else s.log)
            && o.message == "Скрафчено: " + r.result
            && o.state.(inventory := s.inventory, resourceCounters := s.resourceCounters, log := s.log) == s
  {
    var r := Recipes[name];
    RecipesWellFormed();
    forall k ensures Get(Consume(s.inventory, r.ingredients), k) == Get(s.inventory, k) - Required(r.ingredients, k) {
      ConsumeCounts(s.inventory, r.ingredients, k);
    }
    forall i | 0 <= i < |r.ingredients| ensures Required(r.ingredients, r.ingredients[i].0) == r.ingredients[i].1 {
      RequiredAt(r.ingredients, i);
    }
  }

  /** Because the check precedes every decrement, a craft never makes a count negative. */
  lemma CraftNeverNegative(s: GameState, name: string)
    requires forall k :: Get(s.inventory, k) >= 0
    ensures forall k :: Get(CraftOutcome(s, name).state.inventory, k) >= 0
  {
    if name in Recipes && Sufficient(s.inventory, Recipes[name].ingredients) {
      var r := Recipes[name];
      RecipesWellFormed();
      forall k ensures Get(Consume(s.inventory, r.ingredients), k) >= 0 {
        ConsumeCounts(s.inventory, r.ingredients, k);
        RequiredWithinStock(s.inventory, r.ingredients, k);
      }
    }
  }

  /** `check_craft` keeps the game invariant. */
  lemma CraftKeepsInvariant(s: GameState, name: string)
    requires Invariant(s)
    ensures Invariant(CraftOutcome(s, name).state)
  {
    if name in Recipes && Sufficient(s.inventory, Recipes[name].ingredients) {
      var r := Recipes[name];
      RecipesWellFormed();
      ConsumeKeys(s.inventory, r.ingredients);
      AddValid(Consume(s.inventory, r.ingredients), r.result, 1);
      AddValid(s.resourceCounters, r.result, 1);
      forall k ensures 0 <= Get(Consume(s.inventory, r.ingredients), k) <= Get(s.inventory, k) {
        ConsumeCounts(s.inventory, r.ingredients, k);
        RequiredWithinStock(s.inventory, r.ingredients, k);
        assert Required(r.ingredients, k) >= 0 by {
          forall i | 0 <= i < |r.ingredients| ensures r.ingredients[i].1 >= 0 { }
          RequiredNonNegative(r.ingredients, k);
        }
      }
    }
  }

  /** Counts in the table are never negative, so neither is what a recipe asks for. */
  lemma {:induction false} RequiredNonNegative(ings: seq<(string, int)>, k: string)
    requires forall i :: 0 <= i < |ings| ==> ings[i].1 >= 0
    ensures Required(ings, k) >= 0
    decreases |ings|
  {
    if ings != [] {
      RequiredNonNegative(ings[..|ings| - 1], k);
    }
  }

  /** `use_item` on an item that is not held changes nothing. */
  lemma UseAbsent(s: GameState, item: string)
    requires Get(s.inventory, item) < 1
    ensures UseOutcome(s, item) == Outcome(s, NoSuchItem)
  {
  }

  /**
   * Eating berries lowers hunger by 20 down to 0 and takes one berry from the inventory
   * and its counter; the message is the event's text when an event then fires.
   */
  lemma UseBerries(s: GameState)
    requires Get(s.inventory, Berries) >= 1
    ensures var o := UseOutcome(s, Berries);
            var e := Stories.TriggerEvent(s.day, s.ap, Add(s.resourceCounters, Berries, -1));
            && o.state.hunger == Max(0, s.hunger - 20)
            && o.state.inventory == Add(s.inventory, Berries, -1)
            && o.state.resourceCounters == Add(s.resourceCounters, Berries, -1)
            && o.state.storyState == (if e.Some? then Some(e.value.name) else s.storyState)
            && o.message == (if e.Some? then e.value.text else AteBerries)
            && o.state.(hunger := s.hunger, inventory := s.inventory, resourceCounters := s.resourceCounters,
                        storyState := s.storyState) == s
  {
  }

  /** Any other held item cannot be used and changes nothing. */
  lemma UseOther(s: GameState, item: string)
    requires Get(s.inventory, item) >= 1 && item != Berries
    ensures UseOutcome(s, item) == Outcome(s, CannotUse)
  {
  }

  /** `use_item` keeps the game invariant. */
  lemma UseKeepsInvariant(s: GameState, item: string)
    requires Invariant(s)
    ensures Invariant(UseOutcome(s, item).state)
  {
    if item in s.inventory.counts && Get(s.inventory, item) >= 1 && item == Berries {
      var rc := Add(s.resourceCounters, item, -1);
      AddValid(s.inventory, item, -1);
      AddValid(s.resourceCounters, item, -1);
      assert rc.counts.Keys <= KnownItems;
      NoEventFiresInPlay(s.day, s.ap, rc);
    }
  }
}

/**
 * The state-changing branches of main.py's `process_message` (typed commands) and
 * `process_callback` (button presses) on a loaded `Game`. Sampled values (the found item,
 * the new weather) come in as parameters; the lower-casing of the typed text is the
 * caller's.
 */
module MainBot {

  import opened Options
  import opened Counters
  import opened Numbers
  import Logbook
  import Stories
  import Text
  import opened MainGame
  import Crafts

  /** The items `choice` picks a find from. */
  const ExploreItems: set<string> := {"ягоды", "ветка", "камень", "грибы"}
  const Branch := "ветка"

  const Explore := "исследовать"
  const Drink := "пить"
  const Sleep := "спать"

  /** Whether this exploration is the one that hands out the branch for certain. */
  predicate BranchForced(s: GameState) {
    s.day == 2 && s.researchCountDay2 == 1 && !s.foundBranchOnce
  }

  /** The item an exploration finds: the branch when forced, otherwise the sampled one. */
  function FoundItem(s: GameState, sampled: string): string {
    if BranchForced(s) then Branch else sampled
  }

  /** `'исследовать'` with action points left, up to the trigger check. */
  function Explored(s: GameState, sampled: string): GameState {
    Collected(Searched(s), FoundItem(s, sampled))
  }

  /** One action point spent and, when the branch is forced, the flag set and the hint logged. */
  function Searched(s: GameState): GameState {
    var tired := s.(ap := s.ap - 1);
    if BranchForced(s) then WithLog(tired.(foundBranchOnce := true), Stories.GetThought("branch_found")) else tired
  }

  /** The find counted in the inventory and the resource counters and logged. */
  function Collected(s: GameState, item: string): GameState {
    var found := WithLog(s.(inventory := Add(s.inventory, item, 1),
                            resourceCounters := Add(s.resourceCounters, item, 1)),
                         "Вы нашли: " + item);
    found.(researchCountDay2 := found.researchCountDay2 + if found.day == 2 then 1 else 0)
  }

  /** The trigger check that ends an exploration: a firing event starts and is logged. */
  function EventStarted(s: GameState): GameState {
    match Stories.TriggerEvent(s.day, s.ap, s.resourceCounters)
    case Some(e) => WithLog(s.(storyState := Some(e.name)), e.text)
    case None => s
  }

  /** `'пить'` with action points left. */
  function Drunk(s: GameState): GameState {
    WithLog(s.(ap := s.ap - 1, thirst := Max(0, s.thirst - 20)), "Вы попили воду.")
  }

  /** `'спать'`; `weather` is the value `choice` drew. */
  function Slept(s: GameState, weather: string): GameState {
    var rested := StatsUpdated(s.(ap := 5, day := s.day + 1, weather := weather));
    WithLog(rested.(researchCountDay2 := 0), "Вы поспали. Новый день начался.")
  }

  /** `process_message` on the lower-cased `text`. */
  function MessageStep(s: GameState, text: string, sampled: string, weather: string): GameState {
    if text == Explore && s.ap > 0 then EventStarted(Explored(s, sampled))
    else if text == Drink && s.ap > 0 then Drunk(s)
    else if text == Sleep then Slept(s, weather)
    else s
  }

  /** `inv_<action>_<item>` split as `parts[1]` and `'_'.join(parts[2:])`, `""` standing for `None`. */
  function InvCommand(data: string): (string, string)
    requires Text.StartsWith(data, "inv_")
  {
    var cut := Text.SplitOnce(data[4..], '_');
    (cut.0, cut.1.GetOr(""))
  }

  /** `inv_drop_<item>`: one fewer of a held item; nothing for an item not held. */
  function Dropped(s: GameState, item: string): GameState {
    if Get(s.inventory, item) > 0 then WithLog(s.(inventory := Add(s.inventory, item, -1)), "Выкинули: " + item)
    else s
  }

  /** The `inv_*` callbacks; `item == ""` covers both a missing and an empty item. */
  function InvStep(s: GameState, action: string, item: string): GameState {
    if action == "craft" then s
    else if action == "use" && item != "" then
      var o := Crafts.UseOutcome(s, item);
      WithLog(o.state, o.message)
    else if action == "inspect" && item != "" then WithLog(s, "Осмотр: " + item + " — описание.")
    else if action == "drop" && item != "" then Dropped(s, item)
    else if action == "equip" && item != "" then WithLog(s.(equipment := s.equipment[item := true]), "Экипировано: " + item)
    else s
  }

  /**
   * `wolf_flee` / `wolf_fight`: the table's deltas added to hp and karma with no clamping,
   * the outcome logged, the encounter closed.
   */
  function WolfStep(s: GameState, choice: string): GameState {
    var hit := s.(hp := s.hp + WolfDelta(choice, Stories.Hp), karma := s.karma + WolfDelta(choice, Stories.Karma));
    WithLog(hit, WolfOutcome(choice)).(storyState := None)
  }

  /** `event["effects"].get(choice, {})` read at `attr`, zero when absent. */
  function WolfDelta(choice: string, attr: Stories.Attr): int {
    var effects := if choice in Stories.WolfEffects then Stories.WolfEffects[choice] else map[];
    if attr in effects then effects[attr] else 0
  }

  /** `event["outcomes"].get(choice, "")`. */
  function WolfOutcome(choice: string): string {
    if choice in Stories.WolfOutcomes then Stories.WolfOutcomes[choice] else ""
  }

  /** `process_callback` on the button data. */
  function CallbackStep(s: GameState, data: string): GameState {
    if Text.StartsWith(data, "inv_") then InvStep(s, InvCommand(data).0, InvCommand(data).1)
    else if data == "wolf_flee" || data == "wolf_fight" then WolfStep(s, data)
    else if data == "cat_take" || data == "cat_leave" then s
    else if Text.StartsWith(data, "peek_") then s
    else if Text.StartsWith(data, "craft_") then
      var o := Crafts.CraftOutcome(s, Text.SplitOnce(data[6..], '_').0);
      WithLog(o.state, o.message)
    else s
  }

  method ProcessMessage(game: Game, text: string, sampled: string, weather: string)
    requires sampled in ExploreItems && weather in Weathers
    modifies game
    ensures game.State() == MessageStep(old(game.State()), text, sampled, weather)
  {
    if text == Explore && game.ap > 0 {
      ExploreForest(game, sampled);
      StartEvent(game);
    } else if text == Drink && game.ap > 0 {
      DrinkWater(game);
    } else if text == Sleep {
      SleepNight(game, weather);
    }
  }

  /** The drinking branch of `process_message`. */
  method DrinkWater(game: Game)
    modifies game
    ensures game.State() == Drunk(old(game.State()))
  {
    game.ap := game.ap - 1;
    game.thirst := Max(0, game.thirst - 20);
    game.AddLog("Вы попили воду.");
  }

  /** The sleeping branch of `process_message`. */
  method SleepNight(game: Game, weather: string)
    requires weather in Weathers
    modifies game
    ensures game.State() == Slept(old(game.State()), weather)
  {
    ghost var s0 := game.State();
    game.ap := 5;
    game.day := game.day + 1;
    game.UpdateWeather(weather);
    assert game.State() == s0.(ap := 5, day := s0.day + 1, weather := weather);
    game.UpdateStats();
    ghost var rested := StatsUpdated(s0.(ap := 5, day := s0.day + 1, weather := weather));
    assert game.State() == rested;
    game.researchCountDay2 := 0;
    assert game.State() == rested.(researchCountDay2 := 0);
    game.AddLog("Вы поспали. Новый день начался.");
  }

  /** The exploration branch of `process_message` up to the trigger check. */
  method ExploreForest(game: Game, sampled: string)
    modifies game
    ensures game.State() == Explored(old(game.State()), sampled)
  {
    var item := Search(game, sampled);
    game.inventory := Add(game.inventory, item, 1);
    game.resourceCounters := Add(game.resourceCounters, item, 1);
    game.AddLog("Вы нашли: " + item);
    game.researchCountDay2 := game.researchCountDay2 + if game.day == 2 then 1 else 0;
  }

  /** `game.ap -= 1`, the draw, and the forced branch of day 2. */
  method Search(game: Game, sampled: string) returns (item: string)
    modifies game
    ensures game.State() == Searched(old(game.State()))
    ensures item == FoundItem(old(game.State()), sampled)
  {
    game.ap := game.ap - 1;
    item := sampled;
    if game.day == 2 && game.researchCountDay2 == 1 && !game.foundBranchOnce {
      item := Branch;
      game.foundBranchOnce := true;
      game.AddLog(Stories.GetThought("branch_found"));
    }
  }

  /** `event_name = trigger_event(game)` and what follows it. */
  method StartEvent(game: Game)
    modifies game
    ensures game.State() == EventStarted(old(game.State()))
  {
    var event := Stories.TriggerEvent(game.day, game.ap, game.resourceCounters);
    if event.Some? {
      game.storyState := Some(event.value.name);
      game.AddLog(event.value.text);
    }
  }

  method ProcessCallback(game: Game, data: string)
    modifies game
    ensures game.State() == CallbackStep(old(game.State()), data)
  {
    if Text.StartsWith(data, "inv_") {
      var cut := Text.SplitOnce(data[4..], '_');
      var action, item := cut.0, cut.1.GetOr("");
      InventoryAction(game, action, item);
    } else if data == "wolf_flee" || data == "wolf_fight" {
      WolfChoice(game, data);
    } else if data == "cat_take" || data == "cat_leave" {
    } else if Text.StartsWith(data, "peek_") {
    } else if Text.StartsWith(data, "craft_") {
      var recipeName := Text.SplitOnce(data[6..], '_').0;
      var result := Crafts.CheckCraft(game, recipeName);
      game.AddLog(result);
    }
  }

  /** The `inv_*` branch of `process_callback`. */
  method InventoryAction(game: Game, action: string, item: string)
    modifies game
    ensures game.State() == InvStep(old(game.State()), action, item)
  {
    if action == "craft" {
    } else if action == "use" && item != "" {
      var result := Crafts.UseItem(game, item);
      game.AddLog(result);
    } else if action == "inspect" && item != "" {
      game.AddLog("Осмотр: " + item + " — описание.");
    } else if action == "drop" && item != "" {
      if Get(game.inventory, item) > 0 {
        game.inventory := Add(game.inventory, item, -1);
        game.AddLog("Выкинули: " + item);
      }
    } else if action == "equip" && item != "" {
      game.equipment := game.equipment[item := true];
      game.AddLog("Экипировано: " + item);
    }
  }

  /** The wolf branch of `process_callback`: `setattr` of each delta, then the outcome. */
  method WolfChoice(game: Game, choice: string)
    modifies game
    ensures game.State() == WolfStep(old(game.State()), choice)
  {
    ghost var s0 := game.State();
    var outcome := WolfOutcome(choice);
    var hp := game.hp + WolfDelta(choice, Stories.Hp);
    var karma := game.karma + WolfDelta(choice, Stories.Karma);
    game.hp := hp;
    game.karma := karma;
    assert game.State() == s0.(hp := hp, karma := karma);
    game.AddLog(outcome);
    assert game.State() == WithLog(s0.(hp := hp, karma := karma), outcome);
    game.storyState := None;
    assert game.State() == WithLog(s0.(hp := hp, karma := karma), outcome).(storyState := None);
  }

  // Properties of the typed commands.

  /** The trigger check changes only the log and the encounter in progress. */
  lemma EventStartedOnlyStarts(s: GameState)
    ensures EventStarted(s).(log := s.log, storyState := s.storyState) == s
  {
  }

  /**
   * Exploring spends one action point, counts the find once in the inventory and once in
   * the resource counters, leaves every other item alone, and advances the day-2 count.
   */
  lemma ExploreEffect(s: GameState, sampled: string, weather: string)
    requires s.ap > 0
    ensures var t := MessageStep(s, Explore, sampled, weather); var item := FoundItem(s, sampled);
      && t.ap == s.ap - 1
      && Get(t.inventory, item) == Get(s.inventory, item) + 1
      && Get(t.resourceCounters, item) == Get(s.resourceCounters, item) + 1
      && (forall k :: k != item ==> Get(t.inventory, k) == Get(s.inventory, k))
      && (forall k :: k != item ==> Get(t.resourceCounters, k) == Get(s.resourceCounters, k))
      && t.researchCountDay2 == s.researchCountDay2 + (if s.day == 2 then 1 else 0)
      && t.foundBranchOnce == (s.foundBranchOnce || BranchForced(s))
      && (t.hp, t.hunger, t.thirst, t.karma, t.day) == (s.hp, s.hunger, s.thirst, s.karma, s.day)
  {
    EventStartedOnlyStarts(Explored(s, sampled));
  }

  /** Before the trigger check, the newest log line of an exploration names the find. */
  lemma ExploreLogsFind(s: GameState, sampled: string)
    ensures var t := Explored(s, sampled); t.log[|t.log| - 1] == "Вы нашли: " + FoundItem(s, sampled)
  {
  }

  /** With no action points left, exploring and drinking change nothing. */
  lemma ExhaustedIgnoresExploreAndDrink(s: GameState, sampled: string, weather: string)
    requires s.ap <= 0
    ensures MessageStep(s, Explore, sampled, weather) == s
    ensures MessageStep(s, Drink, sampled, weather) == s
  {
  }

  /**
   * The first exploration of day 2 sets up the forced one: the next exploration is
   * guaranteed to find the branch.
   */
  lemma FirstDay2ExplorationForcesNext(s: GameState, sampled: string, weather: string)
    requires s.day == 2 && s.researchCountDay2 == 0 && !s.foundBranchOnce && s.ap > 0
    ensures BranchForced(MessageStep(s, Explore, sampled, weather))
  {
    ExploreEffect(s, sampled, weather);
  }

  /** The forced exploration finds the branch, and no later step can force it again. */
  lemma ForcedBranchOnce(s: GameState, sampled: string, weather: string)
    requires BranchForced(s) && s.ap > 0
    ensures FoundItem(s, sampled) == Branch
    ensures MessageStep(s, Explore, sampled, weather).foundBranchOnce
  {
    ExploreEffect(s, sampled, weather);
  }

  /** Once found, the branch flag stays set whatever is typed or pressed. */
  lemma BranchFlagStays(s: GameState, text: string, sampled: string, weather: string, data: string)
    requires s.foundBranchOnce
    ensures MessageStep(s, text, sampled, weather).foundBranchOnce
    ensures !BranchForced(MessageStep(s, text, sampled, weather))
    ensures CallbackStep(s, data).foundBranchOnce
  {
    if text == Explore && s.ap > 0 {
      ExploreEffect(s, sampled, weather);
    }
  }

  /** Drinking spends one action point, lowers thirst by 20 but not below 0, and logs it. */
  lemma DrinkEffect(s: GameState, sampled: string, weather: string)
    requires s.ap > 0
    ensures var t := MessageStep(s, Drink, sampled, weather);
      && t.ap == s.ap - 1
      && t.thirst == Max(0, s.thirst - 20)
      && t.log == Logbook.Append(s.log, "Вы попили воду.")
      && t.(ap := s.ap, thirst := s.thirst, log := s.log) == s
  {
  }

  /**
   * Sleeping restores five action points, starts the next day with the drawn weather,
   * resets the day-2 count, applies `update_stats` and logs the new day last.
   */
  lemma SleepEffect(s: GameState, sampled: string, weather: string)
    ensures var t := MessageStep(s, Sleep, sampled, weather);
      && t.ap == 5
      && t.day == s.day + 1
      && t.weather == weather
      && t.researchCountDay2 == 0
      && t.hunger == Min(100, s.hunger + 10)
      && t.thirst == Min(100, s.thirst + 10)
      && t.hp == (if s.hunger + 10 >= 100 || s.thirst + 10 >= 100 then Max(0, s.hp - 10) else s.hp)
      && t.log == (if t.hp <= 0 then Logbook.Append(Logbook.Append(s.log, DeathLine), "Вы поспали. Новый день начался.")
                   else Logbook.Append(s.log, "Вы поспали. Новый день начался."))
      && t.log[|t.log| - 1] == "Вы поспали. Новый день начался."
      && (t.inventory, t.resourceCounters, t.karma, t.foundBranchOnce) == (s.inventory, s.resourceCounters, s.karma, s.foundBranchOnce)
      && (t.storyState, t.equipment, t.navStack) == (s.storyState, s.equipment, s.navStack)
  {
    StatsUpdatedEffect(s.(ap := 5, day := s.day + 1, weather := weather));
  }

  // Properties of the button callbacks.

  /** `inv_<action>_<item>` is cut back into its action and item, whatever `_` the item holds. */
  lemma InvCommandOfJoined(action: string, item: string)
    requires '_' !in action
    ensures Text.StartsWith("inv_" + action + "_" + item, "inv_")
    ensures InvCommand("inv_" + action + "_" + item) == (action, item)
  {
    var data := "inv_" + action + "_" + item;
    assert data[..4] == "inv_";
    assert data[4..] == action + ['_'] + item;
    Text.SplitOnceOfJoined(action, '_', item);
  }

  /** `inv_<action>` with no item part gives no item. */
  lemma InvCommandWithoutItem(action: string)
    requires '_' !in action
    ensures Text.StartsWith("inv_" + action, "inv_")
    ensures InvCommand("inv_" + action) == (action, "")
  {
    var data := "inv_" + action;
    assert data[..4] == "inv_";
    assert data[4..] == action;
    Text.SplitOnceWithoutSep(action, '_');
  }

  /** The drop button of an item runs the drop of exactly that item. */
  lemma DropCallback(s: GameState, item: string)
    requires item != ""
    ensures CallbackStep(s, "inv_drop_" + item) == Dropped(s, item)
  {
    assert "inv_drop_" + item == "inv_" + "drop" + "_" + item;
    InvCommandOfJoined("drop", item);
  }

  /** A drop removes one of a held item and nothing else; an item not held is left alone. */
  lemma DropEffect(s: GameState, item: string)
    ensures var t := Dropped(s, item);
      && (Get(s.inventory, item) > 0 ==> Get(t.inventory, item) == Get(s.inventory, item) - 1)
      && (Get(s.inventory, item) <= 0 ==> t == s)
      && (forall k :: k != item ==> Get(t.inventory, k) == Get(s.inventory, k))
      && t.resourceCounters == s.resourceCounters
  {
  }

  /** A drop never takes a count below zero. */
  lemma DropNeverNegative(s: GameState, item: string)
    requires forall k :: Get(s.inventory, k) >= 0
    ensures forall k :: Get(Dropped(s, item).inventory, k) >= 0
  {
    DropEffect(s, item);
  }

  /**
   * Fleeing costs 10 hp and 5 karma, fighting 20 hp and gains 10 karma, with no clamping;
   * either closes the encounter and logs its outcome.
   */
  lemma WolfEffect(s: GameState)
    ensures var t := CallbackStep(s, "wolf_flee");
      && t.hp == s.hp - 10 && t.karma == s.karma - 5 && t.storyState == None
      && t.log[|t.log| - 1] == Stories.WolfOutcomes["wolf_flee"]
    ensures var t := CallbackStep(s, "wolf_fight");
      && t.hp == s.hp - 20 && t.karma == s.karma + 10 && t.storyState == None
      && t.log[|t.log| - 1] == Stories.WolfOutcomes["wolf_fight"]
  {
    assert !Text.StartsWith("wolf_flee", "inv_") by { assert "wolf_flee"[0] != 'i'; }
    assert !Text.StartsWith("wolf_fight", "inv_") by { assert "wolf_fight"[0] != 'i'; }
  }

  /** `craft_<name>` runs `check_craft` on that name and logs its message. */
  lemma CraftCallback(s: GameState, name: string)
    requires '_' !in name
    ensures var o := Crafts.CraftOutcome(s, name); CallbackStep(s, "craft_" + name) == WithLog(o.state, o.message)
  {
    var data := "craft_" + name;
    assert data[0] == 'c' && data[1] == 'r';
    assert "cat_take"[1] == 'a' && "cat_leave"[1] == 'a';
    assert !Text.StartsWith(data, "inv_") && !Text.StartsWith(data, "peek_");
    assert data != "wolf_flee" && data != "wolf_fight" && data != "cat_take" && data != "cat_leave";
    assert data[..6] == "craft_" && data[6..] == name;
    Text.SplitOnceWithoutSep(name, '_');
  }

  // The invariant is kept by every step.

  lemma MessageStepKeepsInvariant(s: GameState, text: string, sampled: string, weather: string)
    requires Invariant(s) && sampled in ExploreItems
    ensures Invariant(MessageStep(s, text, sampled, weather))
  {
    if text == Explore && s.ap > 0 {
      ExploreKeepsInvariant(s, sampled);
    } else if text == Drink && s.ap > 0 {
      DrinkKeepsInvariant(s);
    } else if text == Sleep {
      SleepKeepsInvariant(s, weather);
    }
  }

  lemma DrinkKeepsInvariant(s: GameState)
    requires Invariant(s) && s.ap > 0
    ensures Invariant(Drunk(s))
  {
    WithLogKeepsInvariant(s.(ap := s.ap - 1, thirst := Max(0, s.thirst - 20)), "Вы попили воду.");
  }

  lemma SleepKeepsInvariant(s: GameState, weather: string)
    requires Invariant(s)
    ensures Invariant(Slept(s, weather))
  {
    var woken := s.(ap := 5, day := s.day + 1, weather := weather);
    assert Invariant(woken);
    StatsUpdatedKeepsInvariant(woken);
    var rested := StatsUpdated(woken).(researchCountDay2 := 0);
    assert Invariant(rested);
    WithLogKeepsInvariant(rested, "Вы поспали. Новый день начался.");
  }

  /** An exploration keeps the invariant, and the trigger check after it never fires. */
  lemma ExploreKeepsInvariant(s: GameState, sampled: string)
    requires Invariant(s) && s.ap > 0 && sampled in ExploreItems
    ensures Invariant(EventStarted(Explored(s, sampled)))
  {
    SearchedKeepsInvariant(s);
    CollectedKeepsInvariant(Searched(s), FoundItem(s, sampled));
    var t := Explored(s, sampled);
    NoEventFiresInPlay(t.day, t.ap, t.resourceCounters);
  }

  /** Spending an action point, and the forced branch hint, keep the invariant. */
  lemma SearchedKeepsInvariant(s: GameState)
    requires Invariant(s) && s.ap > 0
    ensures Invariant(Searched(s))
  {
    var tired := s.(ap := s.ap - 1);
    assert Invariant(tired);
    if BranchForced(s) {
      WithLogKeepsInvariant(tired.(foundBranchOnce := true), Stories.GetThought("branch_found"));
    }
  }

  /** Counting a known find in both counters keeps the invariant. */
  lemma CollectedKeepsInvariant(s: GameState, item: string)
    requires Invariant(s) && item in KnownItems
    ensures Invariant(Collected(s, item))
  {
    AddValid(s.inventory, item, 1);
    AddValid(s.resourceCounters, item, 1);
    AddKeys(s.resourceCounters, item, 1);
    var added := s.(inventory := Add(s.inventory, item, 1), resourceCounters := Add(s.resourceCounters, item, 1));
    assert Invariant(added);
    WithLogKeepsInvariant(added, "Вы нашли: " + item);
  }

  lemma CallbackStepKeepsInvariant(s: GameState, data: string)
    requires Invariant(s)
    ensures Invariant(CallbackStep(s, data))
  {
    if Text.StartsWith(data, "inv_") {
      var (action, item) := InvCommand(data);
      InvStepKeepsInvariant(s, action, item);
    } else if Text.StartsWith(data, "craft_") {
      Crafts.CraftKeepsInvariant(s, Text.SplitOnce(data[6..], '_').0);
    }
  }

  lemma InvStepKeepsInvariant(s: GameState, action: string, item: string)
    requires Invariant(s)
    ensures Invariant(InvStep(s, action, item))
  {
    if action == "craft" {
    } else if action == "use" && item != "" {
      var o := Crafts.UseOutcome(s, item);
      Crafts.UseKeepsInvariant(s, item);
      WithLogKeepsInvariant(o.state, o.message);
    } else if action == "inspect" && item != "" {
      WithLogKeepsInvariant(s, "Осмотр: " + item + " — описание.");
    } else if action == "drop" && item != "" {
      DropKeepsInvariant(s, item);
    } else if action == "equip" && item != "" {
      WithLogKeepsInvariant(s.(equipment := s.equipment[item := true]), "Экипировано: " + item);
    }
  }

  lemma DropKeepsInvariant(s: GameState, item: string)
    requires Invariant(s)
    ensures Invariant(Dropped(s, item))
  {
    if Get(s.inventory, item) > 0 {
      AddValid(s.inventory, item, -1);
      var t := s.(inventory := Add(s.inventory, item, -1));
      assert Invariant(t);
      WithLogKeepsInvariant(t, "Выкинули: " + item);
    }
  }
}

/**
 * The player record of main.py: the `Game` class, whose methods update its fields in
 * place. `GameState` is the value of all those fields at one moment; every method is
 * specified by the function of the old `GameState` that gives the new one.
 */
module MainGame {

  import opened Options
  import opened Counters
  import opened Numbers
  import Logbook
  import Stories
  import Text

  /** The weathers `choice` samples from. */
  const Weathers: set<string> := {"солнечно", "дождливо", "пасмурно"}

  /** Every item name that any action of the game ever counts in `resource_counters`. */
  const KnownItems: set<string> := {"ягоды", "ветка", "камень", "грибы", "факел"}

  const DeathLine := "Вы погибли... Игра окончена."
  const EmptyInventoryText := "Инвентарь пуст."

  datatype GameState = GameState(
    hp: int,
    hunger: int,
    thirst: int,
    ap: int,
    karma: int,
    day: int,
    log: seq<string>,
    inventory: Counter,
    equipment: map<string, bool>,
    storyState: Option<string>,
    navStack: seq<string>,
    weather: string,
    researchCountDay2: int,
    foundBranchOnce: bool,
    resourceCounters: Counter)

  /** The state `Game()` starts in, `weather` being the sampled weather. */
  function Initial(weather: string): GameState {
    GameState(100, 0, 0, 5, 0, 1, [], Empty, map[], None, [], weather, 0, false, Empty)
  }

  /** `s` after `add_log(text)`. */
  function WithLog(s: GameState, text: string): GameState {
    s.(log := Logbook.Append(s.log, text))
  }

  /** `s` after `update_stats()`. */
  function StatsUpdated(s: GameState): GameState {
    var hunger := Min(100, s.hunger + 10);
    var thirst := Min(100, s.thirst + 10);
    var hp := if hunger >= 100 || thirst >= 100 then Max(0, s.hp - 10) else s.hp;
    var t := s.(hunger := hunger, thirst := thirst, hp := hp);
    if hp <= 0 then WithLog(t, DeathLine) else t
  }

  /** `pop_screen()` on `stack`: the screen it returns and the stack it leaves. */
  function Popped(stack: seq<string>): (Option<string>, seq<string>) {
    if stack == [] then (None, stack) else (Some(stack[|stack| - 1]), stack[..|stack| - 1])
  }

  /**
   * What holds in every state the game reaches from `Game()` (proved action by action in
   * Crafts and MainBot): clamped hunger and thirst, hp never above 100, action points
   * between 0 and 5, a capped log, non-negative item counts that never exceed how many of
   * the item were ever found or crafted, less those eaten, counters only for the known items, and no
   * encounter in progress.
   */
  ghost predicate Invariant(s: GameState) {
    && 0 <= s.hunger <= 100
    && 0 <= s.thirst <= 100
    && s.hp <= 100
    && 0 <= s.ap <= 5
    && s.day >= 1
    && s.researchCountDay2 >= 0
    && |s.log| <= Logbook.Cap
    && Valid(s.inventory)
    && Valid(s.resourceCounters)
    && (forall k :: 0 <= Get(s.inventory, k) <= Get(s.resourceCounters, k))
    && s.resourceCounters.counts.Keys <= KnownItems
    && s.storyState == None
  }

  class Game {
    var hp: int
    var hunger: int
    var thirst: int
    var ap: int
    var karma: int
    var day: int
    var log: seq<string>
    var inventory: Counter
    var equipment: map<string, bool>
    var storyState: Option<string>
    var navStack: seq<string>
    var weather: string
    var researchCountDay2: int
    var foundBranchOnce: bool
    var resourceCounters: Counter

    ghost function State(): GameState
      reads this
    {
      GameState(hp, hunger, thirst, ap, karma, day, log, inventory, equipment, storyState,
                navStack, weather, researchCountDay2, foundBranchOnce, resourceCounters)
    }

    /** `Game()`; `weather` is the value `choice` drew from `Weathers`. */
    constructor (weather: string)
      requires weather in Weathers
      ensures State() == Initial(weather)
    {
      hp, hunger, thirst, ap, karma, day := 100, 0, 0, 5, 0, 1;
      log := [];
      inventory := Empty;
      equipment := map[];
      storyState := None;
      navStack := [];
      this.weather := weather;
      researchCountDay2 := 0;
      foundBranchOnce := false;
      resourceCounters := Empty;
    }

    method AddLog(text: string)
      modifies this
      ensures State() == WithLog(old(State()), text)
    {
      log := log + [text];
      if |log| > Logbook.Cap {
        log := log[|log| - Logbook.Cap..];
      }
    }

    /**
     * `get_inventory_text()`: "Инвентарь пуст." for a counter without keys, otherwise one
     * `item: count` line per key in insertion order. The two cases never coincide.
     */
    function InventoryText(): (r: string)
      reads this
      ensures Valid(inventory) ==> (r == EmptyInventoryText <==> inventory.counts == map[])
      ensures |inventory.keys| > 0 ==> Text.StartsWith(r, InventoryLines(inventory)[0])
      ensures |inventory.keys| > 0 ==>
        var last := InventoryLines(inventory)[|inventory.keys| - 1]; |last| <= |r| && r[|r| - |last|..] == last
    {
      if |inventory.keys| == 0 then EmptyInventoryText
      else Text.Join(InventoryLines(inventory), "\n")
    }

    method PushScreen(screen: string)
      modifies this
      ensures State() == old(State()).(navStack := old(navStack) + [screen])
    {
      navStack := navStack + [screen];
    }

    method PopScreen() returns (screen: Option<string>)
      modifies this
      ensures (screen, navStack) == Popped(old(navStack))
      ensures State() == old(State()).(navStack := navStack)
    {
      if navStack != [] {
        screen := Some(navStack[|navStack| - 1]);
        navStack := navStack[..|navStack| - 1];
      } else {
        screen := None;
      }
    }

    /** `update_weather()`; `weather` is the value `choice` drew. */
    method UpdateWeather(weather: string)
      requires weather in Weathers
      modifies this
      ensures State() == old(State()).(weather := weather)
    {
      this.weather := weather;
    }

    method UpdateStats()
      modifies this
      ensures State() == StatsUpdated(old(State()))
    {
      hunger := Min(100, hunger + 10);
      thirst := Min(100, thirst + 10);
      if hunger >= 100 || thirst >= 100 {
        hp := Max(0, hp - 10);
      }
      if hp <= 0 {
        AddLog(DeathLine);
      }
    }
  }

  /** The `item: count` lines of `get_inventory_text`, in key order. */
  function InventoryLines(c: Counter): (lines: seq<string>)
    ensures |lines| == |c.keys|
    ensures forall i :: 0 <= i < |lines| ==> |lines[i]| > 0 && Text.IsDigit(lines[i][|lines[i]| - 1])
  {
    seq(|c.keys|, i requires 0 <= i < |c.keys| => c.keys[i] + ": " + Text.IntToString(Get(c, c.keys[i])))
  }

  /**
   * Line `i` is key `i`, then ": ", then the decimal digits of its count, which read back
   * to the count; a negative count is written with a minus sign before its digits.
   */
  lemma InventoryLineMeaning(c: Counter, i: nat)
    requires i < |c.keys|
    ensures var line, k := InventoryLines(c)[i], c.keys[i]; var rest := line[|k| + 2..];
      && Text.StartsWith(line, k + ": ")
      && (Get(c, k) >= 0 ==> Text.AllDigits(rest) && Text.DigitsValue(rest) == Get(c, k))
      && (Get(c, k) < 0 ==> |rest| > 1 && rest[0] == '-' && Text.AllDigits(rest[1..]) && Text.DigitsValue(rest[1..]) == -Get(c, k))
  {
    var k := c.keys[i];
    var n := Get(c, k);
    var line := InventoryLines(c)[i];
    var digits := Text.IntToString(n);
    assert line == (k + ": ") + digits;
    assert line[|k| + 2..] == digits;
    Text.IntToStringReadsBack(n);
  }

  /** Popping after a push gives back the pushed screen and the stack as it was. */
  lemma PopUndoesPush(stack: seq<string>, screen: string)
    ensures Popped(stack + [screen]) == (Some(screen), stack)
  {
  }

  /** Popping an empty stack returns nothing and leaves it empty. */
  lemma PopEmpty()
    ensures Popped([]) == (None, [])
  {
  }

  /** Popping removes exactly the most recent screen. */
  lemma PopTakesLast(stack: seq<string>)
    requires stack != []
    ensures Popped(stack).1 + [Popped(stack).0.value] == stack
  {
  }

  /**
   * `update_stats` raises hunger and thirst by 10 up to 100, takes 10 hp (down to 0) only
   * when hunger or thirst has reached 100, and touches nothing else but the death line.
   */
  lemma StatsUpdatedEffect(s: GameState)
    ensures StatsUpdated(s).hunger == Min(100, s.hunger + 10)
    ensures StatsUpdated(s).thirst == Min(100, s.thirst + 10)
    ensures StatsUpdated(s).hp
         == if s.hunger + 10 >= 100 || s.thirst + 10 >= 100 then Max(0, s.hp - 10) else s.hp
    ensures StatsUpdated(s).log
         == if StatsUpdated(s).hp <= 0 then Logbook.Append(s.log, DeathLine) else s.log
    ensures StatsUpdated(s).(hunger := s.hunger, thirst := s.thirst, hp := s.hp, log := s.log) == s
  {
  }

  /** `update_stats` keeps hunger and thirst within [0, 100] and hp at most 100. */
  lemma StatsUpdatedKeepsInvariant(s: GameState)
    requires Invariant(s)
    ensures Invariant(StatsUpdated(s))
  {
  }

  lemma InitialInvariant(weather: string)
    ensures Invariant(Initial(weather))
  {
    EmptyValid();
  }

  /** The log line appended in any state keeps the invariant. */
  lemma WithLogKeepsInvariant(s: GameState, text: string)
    requires Invariant(s)
    ensures Invariant(WithLog(s, text))
  {
  }

  /**
   * In every state the game reaches, `trigger_event` finds nothing: the only event that
   * can fire at all, the wolf, counts 'berries', and no action ever counts an item under
   * that name (the berries the game hands out are 'ягоды').
   */
  lemma NoEventFiresInPlay(day: int, ap: int, counters: Counter)
    requires counters.counts.Keys <= KnownItems
    ensures Stories.TriggerEvent(day, ap, counters) == None
  {
    assert "berries" !in KnownItems;
    assert Get(counters, "berries") == 0;
    Stories.TriggerEventIsWolfOrNothing(day, ap, counters);
  }
}

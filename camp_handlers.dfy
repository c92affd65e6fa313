/**
 * The button handler of handlers.py: one `Camp.Game` per player in the `games`
 * dictionary, `start_game` to install one, and the `action_*` and `inv_*` buttons
 * that change it. The coin of the signal and the escape roll come in as parameters.
 */
module CampHandlers {

  import Logbook
  import Text
  import opened Numbers
  import opened Camp

  const Exhausted := "🏕 У тебя нет сил и нужно отдохнуть"
  const FoundBark := "🔍 Ты пошёл в чащу... нашёл кору!"
  const Drank := "💧 Напился... жажда +20"
  const CaughtSignal := "📱 Поймал сигнал... +5 к поиску маршрута"
  const NoSignal := "📱 Сигнал не пойман..."
  const EscapeFailed := "Побег не удался..."

  /** The log line of a night's sleep, naming the new day. */
  function SleptLine(day: int): string {
    "🌙 День " + Text.IntToString(day) + ". Выспался, голод -15"
  }

  /** The log line of an `inv_*` stub button, `""` for any other data. */
  function StubLine(data: string): string {
    if data == "inv_inspect" then "Осмотрел инвентарь... (заглушка)"
    else if data == "inv_use" then "Использовал предмет... (заглушка)"
    else if data == "inv_drop" then "Выкинул предмет... (заглушка)"
    else if data == "inv_craft" then "Крафт... (заглушка)"
    else if data == "inv_character" then "Персонаж... (заглушка)"
    else ""
  }

  predicate IsStub(data: string) {
    data in {"inv_inspect", "inv_use", "inv_drop", "inv_craft", "inv_character"}
  }

  /** `10 + karma // 10`, the escape chance in percent; `/` by a positive divisor floors. */
  function EscapeChance(karma: int): int {
    10 + karma / 10
  }

  /** A roll of `randint(1, 100)` escapes when it is at most the chance. */
  predicate EscapeSucceeds(karma: int, roll: int) {
    roll <= EscapeChance(karma)
  }

  /** What a button press leaves: the player's game goes on, or the escape removed it. */
  datatype Turn = Playing(state: CampState) | Escaped

  /** `action_1`: with strength left, one action point for hunger -7 and thirst -8. */
  function Explored(s: CampState): CampState {
    if s.ap > 0 then WithLog(s.(ap := s.ap - 1, hunger := Max(0, s.hunger - 7), thirst := Max(0, s.thirst - 8)), FoundBark)
    else WithLog(s, Exhausted)
  }

  /** `action_3`: thirst +20 up to 100, at no action-point cost. */
  function Drunk(s: CampState): CampState {
    WithLog(s.(thirst := Min(100, s.thirst + 20)), Drank)
  }

  /** `action_4`: the next day, five action points, hunger -15 down to 0. */
  function Slept(s: CampState): CampState {
    var t := s.(day := s.day + 1, ap := 5, hunger := Max(0, s.hunger - 15));
    WithLog(t, SleptLine(t.day))
  }

  /** `action_5`: with strength left, one action point and, if `coin == 1`, progress +5. */
  function Signalled(s: CampState, coin: int): CampState {
    if s.ap > 0 then
      var t := s.(ap := s.ap - 1);
      if coin == 1 then WithLog(t.(searchProgress := t.searchProgress + 5), CaughtSignal) else WithLog(t, NoSignal)
    else WithLog(s, Exhausted)
  }

  /**
   * The effect of one button on an existing game; `coin` is `randint(1, 2)` and `roll`
   * is `randint(1, 100)`. `action_2`, `inv_back` and unknown data change no state.
   */
  function Step(s: CampState, data: string, coin: int, roll: int): Turn {
    if data == "action_1" then Playing(Explored(s))
    else if data == "action_3" then Playing(Drunk(s))
    else if data == "action_4" then Playing(Slept(s))
    else if data == "action_5" then Playing(Signalled(s, coin))
    else if data == "action_6" then
      if EscapeSucceeds(s.karma, roll) then Escaped else Playing(WithLog(s, EscapeFailed))
    else if IsStub(data) then Playing(WithLog(s, StubLine(data)))
    else Playing(s)
  }

  method Explore(game: Game)
    modifies game
    ensures game.State() == Explored(old(game.State()))
  {
    if game.ap > 0 {
      game.ap := game.ap - 1;
      game.hunger := Max(0, game.hunger - 7);
      game.thirst := Max(0, game.thirst - 8);
      game.AddLog(FoundBark);
    } else {
      game.AddLog(Exhausted);
    }
  }

  method Drink(game: Game)
    modifies game
    ensures game.State() == Drunk(old(game.State()))
  {
    game.thirst := Min(100, game.thirst + 20);
    game.AddLog(Drank);
  }

  method Sleep(game: Game)
    modifies game
    ensures game.State() == Slept(old(game.State()))
  {
    game.day := game.day + 1;
    game.ap := 5;
    game.hunger := Max(0, game.hunger - 15);
    game.AddLog(SleptLine(game.day));
  }

  method CatchSignal(game: Game, coin: int)
    modifies game
    ensures game.State() == Signalled(old(game.State()), coin)
  {
    if game.ap > 0 {
      game.ap := game.ap - 1;
      if coin == 1 {
        game.searchProgress := game.searchProgress + 5;
        game.AddLog(CaughtSignal);
      } else {
        game.AddLog(NoSignal);
      }
    } else {
      game.AddLog(Exhausted);
    }
  }

  /** The module-level `games` dictionary and the callback handler over it. */
  class Sessions {
    var games: map<int, Game>

    constructor ()
      ensures games == map[]
    {
      games := map[];
    }

    /**
     * `process_callback` for player `uid`: `start_game` installs a fresh game; without a
     * game nothing changes; otherwise the game takes the step, and a successful escape
     * removes it from `games`.
     */
    method ProcessCallback(uid: int, data: string, coin: int, roll: int)
      requires 1 <= coin <= 2 && 1 <= roll <= 100
      modifies this, if uid in games then {games[uid]} else {}
      ensures data == "start_game" ==>
        uid in games && fresh(games[uid]) && games[uid].State() == Fresh() && games == old(games)[uid := games[uid]]
      ensures data != "start_game" && uid !in old(games) ==> games == old(games)
      ensures data != "start_game" && uid in old(games) ==>
        match Step(old(games[uid].State()), data, coin, roll)
        case Escaped => games == old(games) - {uid} && unchanged(old(games[uid]))
        case Playing(t) => games == old(games) && games[uid].State() == t
    {
      if data == "start_game" {
        var game := new Game();
        games := games[uid := game];
        return;
      }
      if uid !in games {
        return;
      }
      var game := games[uid];
      if data == "action_1" {
        Explore(game);
      } else if data == "action_3" {
        Drink(game);
      } else if data == "action_4" {
        Sleep(game);
      } else if data == "action_5" {
        CatchSignal(game, coin);
      } else if data == "action_6" {
        if roll <= 10 + game.karma / 10 {
          games := games - {uid};
        } else {
          game.AddLog(EscapeFailed);
        }
      } else if IsStub(data) {
        game.AddLog(StubLine(data));
      }
    }
  }

  // Properties of the buttons.

  /** `karma / 10` here is Python's floor division: the largest multiple of 10 not above karma. */
  lemma EscapeChanceFloors(karma: int)
    ensures 10 * (EscapeChance(karma) - 10) <= karma < 10 * (EscapeChance(karma) - 10) + 10
  {
  }

  /** No roll escapes with karma below -90; every roll escapes with karma of 900 or more. */
  lemma EscapeBounds(karma: int, roll: int)
    requires 1 <= roll <= 100
    ensures karma < -90 ==> !EscapeSucceeds(karma, roll)
    ensures karma >= 900 ==> EscapeSucceeds(karma, roll)
  {
    EscapeChanceFloors(karma);
  }

  /** Exploring with strength left: one action point, hunger -7 and thirst -8 floored at 0. */
  lemma ExploreEffect(s: CampState)
    requires s.ap > 0
    ensures var t := Explored(s);
      && t.ap == s.ap - 1
      && t.hunger == Max(0, s.hunger - 7)
      && t.thirst == Max(0, s.thirst - 8)
      && t.log == Logbook.Append(s.log, FoundBark)
      && t.(ap := s.ap, hunger := s.hunger, thirst := s.thirst, log := s.log) == s
  {
  }

  /** Exploring or searching for a signal without strength only logs that rest is needed. */
  lemma ExhaustedOnlyLogs(s: CampState, coin: int)
    requires s.ap <= 0
    ensures Explored(s) == s.(log := Logbook.Append(s.log, Exhausted))
    ensures Signalled(s, coin) == s.(log := Logbook.Append(s.log, Exhausted))
  {
  }

  /** Drinking raises thirst by 20 up to 100 and spends no action point. */
  lemma DrinkEffect(s: CampState)
    ensures var t := Drunk(s);
      && t.thirst == Min(100, s.thirst + 20)
      && t.ap == s.ap
      && t.(thirst := s.thirst, log := s.log) == s
  {
  }

  /** Sleeping: the next day, five action points, hunger -15 floored at 0, the day logged. */
  lemma SleepEffect(s: CampState)
    ensures var t := Slept(s);
      && t.day == s.day + 1
      && t.ap == 5
      && t.hunger == Max(0, s.hunger - 15)
      && t.log[|t.log| - 1] == SleptLine(s.day + 1)
      && t.(day := s.day, ap := s.ap, hunger := s.hunger, log := s.log) == s
  {
  }

  /** The signal costs one action point and adds 5 progress exactly on a winning coin. */
  lemma SignalEffect(s: CampState, coin: int)
    requires s.ap > 0
    ensures var t := Signalled(s, coin);
      && t.ap == s.ap - 1
      && t.searchProgress == s.searchProgress + (if coin == 1 then 5 else 0)
      && t.(ap := s.ap, searchProgress := s.searchProgress, log := s.log) == s
  {
  }

  /** A stub button only appends its line to the log. */
  lemma StubOnlyLogs(s: CampState, data: string, coin: int, roll: int)
    requires IsStub(data)
    ensures Step(s, data, coin, roll) == Playing(s.(log := Logbook.Append(s.log, StubLine(data))))
    ensures StubLine(data) != ""
  {
  }

  /** The escape button ends the game exactly when the roll is within the chance. */
  lemma EscapeEndsGameIff(s: CampState, coin: int, roll: int)
    ensures Step(s, "action_6", coin, roll) == Escaped <==> roll <= 10 + s.karma / 10
    ensures Step(s, "action_6", coin, roll) != Escaped ==>
      Step(s, "action_6", coin, roll) == Playing(s.(log := Logbook.Append(s.log, EscapeFailed)))
  {
  }

  /**
   * What holds of every game the buttons reach from `Game()`: clamped hunger and
   * thirst, action points between 0 and 5, a non-empty capped log, search progress in
   * steps of 5, and health, karma, items, slots and weight limit as they started.
   */
  ghost predicate Invariant(s: CampState) {
    && 0 <= s.hunger <= 100
    && 0 <= s.thirst <= 100
    && 0 <= s.ap <= 5
    && s.day >= 1
    && 1 <= |s.log| <= Logbook.Cap
    && s.searchProgress >= 0 && s.searchProgress % 5 == 0
    && s.hp == 100 && s.karma == 0
    && s.inventory == StartingItems && s.equipment == NoEquipment && s.maxWeight == 20
  }

  lemma FreshInvariant()
    ensures Invariant(Fresh())
  {
  }

  lemma WithLogKeepsInvariant(s: CampState, text: string)
    requires Invariant(s)
    ensures Invariant(WithLog(s, text))
  {
  }

  /** Every button that leaves the game in play keeps the invariant. */
  lemma StepKeepsInvariant(s: CampState, data: string, coin: int, roll: int)
    requires Invariant(s)
    ensures Step(s, data, coin, roll).Playing? ==> Invariant(Step(s, data, coin, roll).state)
  {
    if data == "action_1" {
      if s.ap > 0 {
        WithLogKeepsInvariant(s.(ap := s.ap - 1, hunger := Max(0, s.hunger - 7), thirst := Max(0, s.thirst - 8)), FoundBark);
      } else {
        WithLogKeepsInvariant(s, Exhausted);
      }
    } else if data == "action_3" {
      WithLogKeepsInvariant(s.(thirst := Min(100, s.thirst + 20)), Drank);
    } else if data == "action_4" {
      var t := s.(day := s.day + 1, ap := 5, hunger := Max(0, s.hunger - 15));
      WithLogKeepsInvariant(t, SleptLine(t.day));
    } else if data == "action_5" {
      SignalKeepsInvariant(s, coin);
    } else if data == "action_6" || IsStub(data) {
      WithLogKeepsInvariant(s, if data == "action_6" then EscapeFailed else StubLine(data));
    }
  }

  lemma SignalKeepsInvariant(s: CampState, coin: int)
    requires Invariant(s)
    ensures Invariant(Signalled(s, coin))
  {
    if s.ap > 0 {
      var t := s.(ap := s.ap - 1);
      if coin == 1 {
        WithLogKeepsInvariant(t.(searchProgress := t.searchProgress + 5), CaughtSignal);
      } else {
        WithLogKeepsInvariant(t, NoSignal);
      }
    } else {
      WithLogKeepsInvariant(s, Exhausted);
    }
  }

  /**
   * Since no button changes karma, the escape chance in every reachable game is the
   * initial 10 in 100: only rolls 1 to 10 escape.
   */
  lemma EscapeChanceInPlay(s: CampState, roll: int)
    requires Invariant(s)
    ensures EscapeChance(s.karma) == 10
    ensures EscapeSucceeds(s.karma, roll) <==> roll <= 10
  {
  }
}

/**
 * The scripted encounters of stories.py: the `EVENTS` table, `get_thought` and
 * `trigger_event`, the search for the first event whose trigger holds.
 */
module Stories {

  import opened Options
  import opened Counters

  /** The attributes of the game that an encounter choice changes. */
  datatype Attr = Hp | Karma

  /**
   * A trigger: the day and action points it asks for (`None` where the table gives no
   * such key) and the least value of each resource counter it names.
   */
  datatype Trigger = Trigger(day: Option<int>, ap: Option<int>, counters: map<string, int>)

  /** One entry of `EVENTS`: its key, text, per-choice stat deltas and outcome texts, and trigger. */
  datatype Event = Event(
    name: string,
    text: string,
    effects: map<string, map<Attr, int>>,
    outcomes: map<string, string>,
    trigger: Trigger)

  const WolfEffects: map<string, map<Attr, int>> :=
    map["wolf_flee" := map[Hp := -10, Karma := -5], "wolf_fight" := map[Hp := -20, Karma := 10]]
  const WolfOutcomes: map<string, string> :=
    map["wolf_flee" := "Вы убежали от волка, но поранились.", "wolf_fight" := "Вы сразились с волком и победили."]
  const WolfTrigger: Trigger := Trigger(Some(2), Some(3), map["berries" := 2])
  const Wolf: Event := Event("wolf", "Вы встретили волка!", WolfEffects, WolfOutcomes, WolfTrigger)

  const CatEffects: map<string, map<Attr, int>> := map["cat_take" := map[Karma := 5], "cat_leave" := map[Karma := -5]]
  const CatOutcomes: map<string, string> := map["cat_take" := "Вы забрали кота.", "cat_leave" := "Вы оставили кота."]
  const CatTrigger: Trigger := Trigger(Some(3), None, map[])
  const Cat: Event := Event("cat", "Вы нашли кота!", CatEffects, CatOutcomes, CatTrigger)

  const PeekDenTrigger: Trigger := Trigger(None, None, map["sticks" := 1])
  const PeekDen: Event := Event("peek_den", "Вы заглянули в нору...", map[], map[], PeekDenTrigger)

  /** `EVENTS` in the order the dictionary lists it. */
  const Events: seq<Event> := [Wolf, Cat, PeekDen]

  /**
   * The condition `trigger_event` tests: `trig.get('day') == game.day`, the same for
   * `ap`, and every named counter (missing = 0) at least its threshold.
   */
  predicate Fires(t: Trigger, day: int, ap: int, counters: Counter) {
    && t.day == Some(day)
    && t.ap == Some(ap)
    && forall k :: k in t.counters ==> Get(counters, k) >= t.counters[k]
  }

  /** Index of the first event of `table` whose trigger holds, if any. */
  function FirstFiring(table: seq<Event>, day: int, ap: int, counters: Counter): (r: Option<nat>)
    ensures r.Some? ==> r.value < |table| && Fires(table[r.value].trigger, day, ap, counters)
    ensures r.Some? ==> forall j :: 0 <= j < r.value ==> !Fires(table[j].trigger, day, ap, counters)
    ensures r.None? <==> forall j :: 0 <= j < |table| ==> !Fires(table[j].trigger, day, ap, counters)
  {
    if table == [] then None
    else if Fires(table[0].trigger, day, ap, counters) then Some(0)
    else
      match FirstFiring(table[1..], day, ap, counters)
      case Some(i) => Some(i + 1)
      case None => None
  }

  /**
   * `trigger_event(game)` on the game's day, action points and resource counters. It
   * returns the event itself rather than its key; the keys of `EVENTS` are distinct, so
   * `EVENTS[key]` is that event.
   */
  function TriggerEvent(day: int, ap: int, counters: Counter): (r: Option<Event>)
    ensures r.Some? ==> r.value in Events && Fires(r.value.trigger, day, ap, counters)
  {
    match FirstFiring(Events, day, ap, counters)
    case Some(i) => Some(Events[i])
    case None => None
  }

  const BranchThought := "Мысль: А из этой ветки можно сделать факел?"

  /** `get_thought(key)`: the stored thought for `'branch_found'`, the empty string otherwise. */
  function GetThought(key: string): (r: string)
    ensures key == "branch_found" ==> r == BranchThought
    ensures key != "branch_found" ==> r == ""
  {
    var thoughts := map["branch_found" := BranchThought];
    if key in thoughts then thoughts[key] else ""
  }

  /** An event whose trigger lacks a day or an action-point key never fires. */
  lemma MissingDayOrApNeverFires(t: Trigger, day: int, ap: int, counters: Counter)
    requires t.day.None? || t.ap.None?
    ensures !Fires(t, day, ap, counters)
  {
  }

  /** So, in the table as written, the cat and the den can never fire. */
  lemma CatAndPeekDenNeverFire(day: int, ap: int, counters: Counter)
    ensures !Fires(Cat.trigger, day, ap, counters)
    ensures !Fires(PeekDen.trigger, day, ap, counters)
  {
    MissingDayOrApNeverFires(Cat.trigger, day, ap, counters);
    MissingDayOrApNeverFires(PeekDen.trigger, day, ap, counters);
  }

  /** The wolf fires exactly on day 2 with 3 action points left and at least 2 'berries'. */
  lemma WolfFiresIff(day: int, ap: int, counters: Counter)
    ensures Fires(Wolf.trigger, day, ap, counters) <==> day == 2 && ap == 3 && Get(counters, "berries") >= 2
  {
    assert "berries" in Wolf.trigger.counters;
  }

  /** Hence `trigger_event` yields the wolf under exactly that condition and nothing otherwise. */
  lemma {:induction false} TriggerEventIsWolfOrNothing(day: int, ap: int, counters: Counter)
    ensures TriggerEvent(day, ap, counters)
         == if day == 2 && ap == 3 && Get(counters, "berries") >= 2 then Some(Wolf) else None
  {
    WolfFiresIff(day, ap, counters);
    CatAndPeekDenNeverFire(day, ap, counters);
    if !(day == 2 && ap == 3 && Get(counters, "berries") >= 2) {
      assert forall j :: 0 <= j < |Events| ==> !Fires(Events[j].trigger, day, ap, counters);
    }
  }
}

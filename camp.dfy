/**
 * The alternative game state of game.py, used by the button handlers of handlers.py:
 * stats, a list of items carried and seven equipment slots.
 */
module Camp {

  import opened Options
  import Logbook
  import Text

  /** The keys of the equipment dictionary. */
  datatype Slot = Head | Torso | Back | Hands | Legs | Feet | Trinket

  /** An `Item`; `slot` is `None` for an item that cannot be worn. */
  datatype Item = Item(name: string, icon: string, desc: string, weight: int, slot: Option<Slot>, armor: int, uses: int)

  /** `Item(name, icon, desc, weight)` with the constructor's defaults for the rest. */
  function NewItem(name: string, icon: string, desc: string, weight: int): Item {
    Item(name, icon, desc, weight, None, 0, 1)
  }

  datatype CampState = CampState(
    hp: int,
    hunger: int,
    thirst: int,
    ap: int,
    karma: int,
    searchProgress: int,
    day: int,
    log: seq<string>,
    inventory: seq<Item>,
    equipment: map<Slot, Option<Item>>,
    maxWeight: int)

  const Wakeup := "🌲 Ты проснулся в лесу. Что будешь делать?"
  const Matches := NewItem("Спички", "🔥", "Можно разжечь костёр", 1)
  const Fork := NewItem("Вилка", "🍴", "Оружие или инструмент", 1)
  const Bark := NewItem("Кусок коры", "🪵", "Можно использовать для крафта", 2)
  const StartingItems: seq<Item> := [Matches, Fork, Bark]
  const NoEquipment: map<Slot, Option<Item>> :=
    map[Head := None, Torso := None, Back := None, Hands := None, Legs := None, Feet := None, Trinket := None]

  const InventoryHeader := "🎒 Инвентарь:\n"
  const EmptyInventoryText := "🎒 Инвентарь пуст"

  /** The state `Game()` starts in. */
  function Fresh(): CampState {
    CampState(100, 20, 60, 5, 0, 0, 1, [Wakeup], StartingItems, NoEquipment, 20)
  }

  /** `s` after `add_log(text)`: the same capped log as main.py's game keeps. */
  function WithLog(s: CampState, text: string): CampState {
    s.(log := Logbook.Append(s.log, text))
  }

  /** The line `get_inventory_text` shows for one item. */
  function ItemLine(it: Item): string {
    "• " + it.icon + " " + it.name + " (" + Text.IntToString(it.weight) + " кг) - " + it.desc
  }

  /** One bullet line per item, in order. */
  function ItemLines(items: seq<Item>): seq<string> {
    seq(|items|, i requires 0 <= i < |items| => ItemLine(items[i]))
  }

  /**
   * There is a line for each item, and the line of item `i` starts with the bullet, the
   * icon, the name and the opening of the weight, and ends with the description.
   */
  lemma ItemLinesShape(items: seq<Item>, i: nat)
    requires i < |items|
    ensures |ItemLines(items)| == |items|
    ensures var line, it := ItemLines(items)[i], items[i];
      && Text.StartsWith(line, "• " + it.icon + " " + it.name + " (")
      && Text.EndsWith(line, it.desc)
  {
    var it := items[i];
    var head := "• " + it.icon + " " + it.name + " (";
    var line := ItemLine(it);
    assert line == head + (Text.IntToString(it.weight) + " кг) - " + it.desc);
    assert line == ("• " + it.icon + " " + it.name + " (" + Text.IntToString(it.weight) + " кг) - ") + it.desc;
  }

  class Game {
    var hp: int
    var hunger: int
    var thirst: int
    var ap: int
    var karma: int
    var searchProgress: int
    var day: int
    var log: seq<string>
    var inventory: seq<Item>
    var equipment: map<Slot, Option<Item>>
    var maxWeight: int

    /** The fields as one value. */
    ghost function State(): CampState
      reads this
    {
      CampState(hp, hunger, thirst, ap, karma, searchProgress, day, log, inventory, equipment, maxWeight)
    }

    constructor ()
      ensures State() == Fresh()
    {
      hp := 100;
      hunger := 20;
      thirst := 60;
      ap := 5;
      karma := 0;
      searchProgress := 0;
      day := 1;
      log := [Wakeup];
      inventory := StartingItems;
      equipment := NoEquipment;
      maxWeight := 20;
    }

    method AddLog(text: string)
      modifies this
      ensures State() == WithLog(old(State()), text)
    {
      log := log + [text];
      if |log| > Logbook.Cap {
        log := log[|log| - Logbook.Cap..];
      }
    }

    /**
     * The header and one line per item, newest last; the "empty" message exactly when
     * nothing is carried.
     */
    function InventoryText(): (r: string)
      reads this
      ensures r == EmptyInventoryText <==> inventory == []
      ensures inventory != [] ==> Text.StartsWith(r, InventoryHeader)
      ensures inventory != [] ==> Text.EndsWith(r, ItemLine(inventory[|inventory| - 1]))
    {
      if inventory != [] then
        ListingShape(inventory);
        InventoryHeader + Text.Join(ItemLines(inventory), "\n")
      else EmptyInventoryText
    }
  }

  /** The listing of a non-empty inventory differs from the empty message and ends with the last line. */
  lemma ListingShape(items: seq<Item>)
    requires items != []
    ensures var r := InventoryHeader + Text.Join(ItemLines(items), "\n");
      && r != EmptyInventoryText
      && Text.StartsWith(r, InventoryHeader)
      && Text.EndsWith(r, ItemLine(items[|items| - 1]))
  {
    var lines := ItemLines(items);
    var body := Text.Join(lines, "\n");
    assert lines[|lines| - 1] == ItemLine(items[|items| - 1]);
    HeadedText(body, lines[|lines| - 1]);
  }

  /** Text after the header is never the empty message and keeps the text's suffixes. */
  lemma HeadedText(body: string, last: string)
    requires Text.EndsWith(body, last)
    ensures var r := InventoryHeader + body;
      && r != EmptyInventoryText
      && Text.StartsWith(r, InventoryHeader)
      && Text.EndsWith(r, last)
  {
    var r := InventoryHeader + body;
    assert r[|InventoryHeader| - 2] != EmptyInventoryText[|InventoryHeader| - 2];
    assert r[..|InventoryHeader|] == InventoryHeader;
    assert r[|r| - |last|..] == body[|body| - |last|..];
  }

  /**
   * A new game: full health, hunger 20, thirst 60, five action points, no karma, day 1,
   * no search progress, a weight limit of 20, the wake-up line as the only log entry, the
   * three starting items and every slot empty.
   */
  lemma FreshDefaults()
    ensures var s := Fresh();
      && (s.hp, s.hunger, s.thirst, s.ap, s.karma, s.day, s.searchProgress, s.maxWeight) == (100, 20, 60, 5, 0, 1, 0, 20)
      && s.log == [Wakeup]
      && |s.inventory| == 3
      && [s.inventory[0].name, s.inventory[1].name, s.inventory[2].name] == ["Спички", "Вилка", "Кусок коры"]
      && (forall it :: it in s.inventory ==> it.slot == None && it.armor == 0 && it.uses == 1)
      && (forall sl: Slot :: sl in s.equipment && s.equipment[sl] == None)
  {
    forall sl: Slot ensures sl in NoEquipment && NoEquipment[sl] == None {
      match sl
      case Head => case Torso => case Back => case Hands => case Legs => case Feet => case Trinket =>
    }
  }
}

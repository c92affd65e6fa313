# Forest-survival bot: a verified model of the player-state machine

LesSurvivalBot is a Telegram game. A player wakes in a forest and spends action
points to explore, drink, sleep, craft, use items and answer scripted encounters.
This project models, in Dafny, how each action changes the player's game, and
proves what those changes guarantee.

The repository has two variants of the game, and each is modelled on its own terms:

- **main.py with crafts.py and stories.py** (modules `MainGame`, `Crafts`, `Stories`,
  `MainBot`). The game holds a Python `Counter` inventory, resource counters, an
  encounter slot (`story_state`), a navigation stack and a log capped at 20 lines.
  - Typed commands: explore, drink and sleep.
  - Buttons: the `inv_*` actions, the wolf choices and `craft_*`.
  - Crafting follows the recipe table. Berries are the one usable item.
  - After exploring or eating, the story trigger picks the first event in table order
    whose conditions all hold.
- **game.py with handlers.py** (modules `Camp`, `CampHandlers`). The game holds a list
  of items and seven equipment slots. The `action_*` buttons explore, drink, sleep,
  catch a signal and try to escape. A `games` dictionary maps each player to a game:
  `start_game` installs one and a successful escape removes it.

Shared pieces:

- `Logbook` is the capped log both variants keep.
- `Counters` models the Python `Counter`: keys in insertion order, a missing key counts 0.
- `Text` holds `str(int)`, `str.join`, `str.startswith` and the first cut of `str.split`.
- `Numbers` and `Options` are small helpers.

Each class keeps the source's fields. Each method that changes them is proved to leave
the state that a pure function of the old state describes (for example
`State() == MessageStep(old(State()), text, sampled, weather)`). The source's promises
are then proved as lemmas about those functions. Each variant has an invariant that its
initial state satisfies and that every step keeps:

- **MainGame:** clamped hunger and thirst, action points 0 to 5, a capped log, counts
  never negative and never above the resource counters, and no encounter in progress.
- **CampHandlers:** karma never changes, so the escape chance is always 10 in 100.

One consequence of the code as written is proved rather than assumed. The wolf, the
only event that can fire, waits for a resource counter named `'berries'`. Every find,
craft and meal counts items under their Russian names (berries are `'ягоды'`). So
`trigger_event` never fires in a reachable main.py game (`MainGame.NoEventFiresInPlay`,
`MainBot.ExploreKeepsInvariant`), and `story_state` stays `None`.

The pure functions that define each step, and their source lines:

- `Stories.Fires`: stories.py:60-62.
- `Crafts.CraftOutcome` and `Crafts.Crafted`: crafts.py:33-46.
- `Crafts.UseOutcome`, `Crafts.Eaten` and `Crafts.AfterEating`: crafts.py:50-64.
- `MainGame.Initial`: main.py:58-74.
- `MainGame.WithLog`: main.py:76-79.
- `MainGame.StatsUpdated`: main.py:105-111.
- `MainGame.Popped`: main.py:97-100.
- `MainBot.MessageStep`: main.py:155-192. Its parts are `Explored`, `Searched`, `Collected`, `EventStarted`, `Drunk` and `Slept`.
- `MainBot.CallbackStep`: main.py:206-243. Its parts are `InvCommand`, `InvStep`, `Dropped` and `WolfStep`.
- `Camp.Fresh`: game.py:14-37.
- `CampHandlers.Step`: handlers.py:76-145. Its parts are `Explored`, `Drunk`, `Slept`, `Signalled` and `EscapeSucceeds`.

They carry no contract of their own. What they promise is stated by the lemmas in the
table, and each method in the table is proved to leave the state its function gives.

Three behaviours of the code a reader may not expect, all of which the model follows:

- The wolf buttons apply their deltas whatever `story_state` holds. Nothing gates them
  on an active encounter.
- Drink lowers thirst in main.py but raises it in handlers.py.
- Sleep costs hunger in handlers.py, while main.py raises hunger through `update_stats`.

## Model

| member | source | states |
|---|---|---|
| `Logbook.Append` | main.py:76-79 | the new log has one more line below the cap and exactly 20 at it, and its last line is the new text |
| `Logbook.AppendIsNewestSuffix` | main.py:76-79 | the log kept is the newest part of the old log followed by the new line, so the oldest lines go first |
| `Logbook.AppendBelowCap` | main.py:77 | below the cap, `add_log` is exactly old log plus the new line |
| `Logbook.AppendAtCap` | main.py:78-79 | at the cap, the oldest line is dropped and the new one appended |
| `Counters.Add` | crafts.py:39-41 | `c[k] += d` changes the count of `k` by exactly `d` and no other count |
| `Counters.AddKeys` | main.py:165-166 | `c[k] += d` makes `k` a key, appended to the listing order only when it is new |
| `Counters.AddValid` | main.py:165-166 | an update keeps every key listed once and the listing in step with the map |
| `Counters.EmptyValid` | main.py:66 | `Counter()` is well formed and counts 0 for every key |
| `Counters.NoKeysIffEmpty` | main.py:90 | a counter lists no key exactly when it holds no entry, so the two readings of `not self.inventory` agree |
| `Text.NatToString` | main.py:92 | `str(n)` is a non-empty string of decimal digits without a leading zero |
| `Text.NatToStringRoundTrip` | main.py:92 | reading back the digits of `str(n)` gives `n` |
| `Text.IntToString` | main.py:92 | `str(i)` starts with a minus sign exactly for negative `i` and ends with a digit |
| `Text.IntToStringReadsBack` | main.py:92 | `str(n)` reads back to `n`: its digits denote `n`, or `-n` after the minus sign when `n` is negative |
| `Text.Join` | main.py:92 | `sep.join(parts)` is empty for no parts, the part itself for one, and begins with the first part and ends with the last |
| `Text.SplitOnce` | main.py:207-209 | the head holds no separator; with no separator it is the whole string, otherwise head, separator and tail rebuild the string |
| `Text.SplitOnceOfJoined` | main.py:207-209 | cutting `head + sep + tail` with a separator-free head gives back exactly that head and tail |
| `Text.SplitOnceWithoutSep` | main.py:241 | a string without the separator is its own first part and has no tail |
| `Stories.FirstFiring` | stories.py:57-64 | the index found is of an event whose trigger holds and no earlier one holds; none is found exactly when no trigger holds |
| `Stories.TriggerEvent` | stories.py:57-64 | a returned event is one of the table whose conditions hold on the given day, action points and counters |
| `Stories.GetThought` | stories.py:48-53 | the stored thought for `'branch_found'`, the empty string for every other key |
| `Stories.MissingDayOrApNeverFires` | stories.py:60-61 | a trigger without a day or an action-point key never holds |
| `Stories.CatAndPeekDenNeverFire` | stories.py:20-39 | the cat and the den, as the table gives them, can never fire |
| `Stories.WolfFiresIff` | stories.py:18 | the wolf's trigger holds exactly on day 2 with 3 action points and at least 2 `'berries'` counted |
| `Stories.TriggerEventIsWolfOrNothing` | stories.py:6-64 | `trigger_event` yields the wolf under that condition and nothing otherwise |
| `MainGame.Game.constructor` | main.py:58-74 | a new game has hp 100, hunger and thirst 0, 5 action points, day 1, empty log, counters, equipment and stack, no story in progress, and the drawn weather |
| `MainGame.Game.AddLog` | main.py:76-79 | the fields after `add_log` are the old ones with the capped log appended |
| `MainGame.Game.InventoryText` | main.py:89-92 | "Инвентарь пуст." exactly when the counter is empty; otherwise the text starts with the first key's line and ends with the last key's line |
| `MainGame.InventoryLines` | main.py:92 | as many lines as the counter has keys, and each line ends in a decimal digit |
| `MainGame.InventoryLineMeaning` | main.py:92 | line `i` starts with key `i` and ": ", and the rest of the line reads back to that key's count: its digits, after a minus sign when the count is negative |
| `MainGame.Game.PushScreen` | main.py:94-95 | pushing appends the screen to the stack and changes nothing else |
| `MainGame.Game.PopScreen` | main.py:97-100 | popping returns and removes the last screen, or returns `None` on an empty stack, and changes nothing else |
| `MainGame.PopUndoesPush` | main.py:94-100 | push then pop returns the pushed screen and restores the stack |
| `MainGame.PopEmpty` | main.py:97-100 | popping an empty stack returns `None` and leaves it empty |
| `MainGame.PopTakesLast` | main.py:97-99 | on a non-empty stack, the rest plus the returned screen is the old stack |
| `MainGame.Game.UpdateWeather` | main.py:102-103 | the weather becomes the drawn value and nothing else changes |
| `MainGame.Game.UpdateStats` | main.py:105-111 | the fields after `update_stats` are those `StatsUpdated` gives |
| `MainGame.StatsUpdatedEffect` | main.py:105-111 | hunger and thirst rise by 10 capped at 100; hp drops by 10 floored at 0 only when one of them reaches 100; the death line is logged at hp 0; nothing else changes |
| `MainGame.StatsUpdatedKeepsInvariant` | main.py:105-111 | `update_stats` keeps the game invariant |
| `MainGame.InitialInvariant` | main.py:58-74 | a new game satisfies the invariant |
| `MainGame.WithLogKeepsInvariant` | main.py:76-79 | logging keeps the invariant |
| `MainGame.NoEventFiresInPlay` | main.py:170-174 | with counters only for the game's item names, `trigger_event` finds nothing |
| `Crafts.CheckCraft` | crafts.py:33-46 | the fields and message after `check_craft` are those `CraftOutcome` gives |
| `Crafts.Consummate` | crafts.py:38-45 | once the check passed: ingredients taken, the result granted in inventory and counter, the thought logged, the result named |
| `Crafts.ConsumeIngredients` | crafts.py:38-39 | the loop takes each ingredient's count in turn and changes only the inventory |
| `Crafts.UseItem` | crafts.py:50-64 | the fields and message after `use_item` are those `UseOutcome` gives |
| `Crafts.EatBerries` | crafts.py:53-62 | eating: hunger -20 floored at 0, one berry fewer in inventory and counter, then the trigger check |
| `Crafts.ConsumeCounts` | crafts.py:38-39 | after the decrements each item's count is its old count less its total requirement |
| `Crafts.ConsumeKeys` | crafts.py:38-39 | the decrements keep the counter well formed and add only the ingredient names as keys |
| `Crafts.RequiredAbsent` | crafts.py:38-39 | an item no ingredient names is required 0 times |
| `Crafts.RequiredAt` | crafts.py:38-39 | with distinct ingredient names, each ingredient is required exactly its recipe count |
| `Crafts.RequiredWithinStock` | crafts.py:37-39 | when the check passes, no item is required more often than it is held |
| `Crafts.RequiredNonNegative` | crafts.py:19 | recipe counts that are not negative require no negative amount |
| `Crafts.RecipesWellFormed` | crafts.py:17-26 | each recipe names each ingredient once, and its result is an item the game knows |
| `Crafts.CraftUnknown` | crafts.py:34-36 | an unknown name returns "Нет такого рецепта." and changes nothing |
| `Crafts.CraftInsufficient` | crafts.py:37-46 | if any ingredient is short (missing counts 0), the result is "Недостаточно ингредиентов." and nothing changes |
| `Crafts.CraftSuccess` | crafts.py:37-45 | on success each ingredient falls by exactly its count, the result and its counter rise by exactly 1, the thought is logged, the message names the result, nothing else changes |
| `Crafts.CraftNeverNegative` | crafts.py:37-39 | a craft never makes a count negative, since the check precedes every decrement |
| `Crafts.CraftKeepsInvariant` | crafts.py:33-46 | `check_craft` keeps the game invariant |
| `Crafts.UseAbsent` | crafts.py:51-52 | an absent item or one counted below 1 returns "Нет такого предмета." and changes nothing |
| `Crafts.UseBerries` | crafts.py:53-62 | berries: hunger -20 floored at 0, one fewer in inventory and counter; a firing event sets the story and supplies the message, otherwise "Вы съели ягоды. Сытость улучшилась." |
| `Crafts.UseOther` | crafts.py:64 | any other held item returns "Предмет не может быть использован." and changes nothing |
| `Crafts.UseKeepsInvariant` | crafts.py:50-64 | `use_item` keeps the game invariant |
| `MainBot.ProcessMessage` | main.py:151-192 | the fields after a typed command are those `MessageStep` gives |
| `MainBot.ExploreForest` | main.py:156-169 | exploration up to the trigger check leaves the state `Explored` gives |
| `MainBot.Search` | main.py:157-164 | one action point spent; the find is the branch when forced, with the flag set and the hint logged, otherwise the sampled item |
| `MainBot.StartEvent` | main.py:170-174 | a firing event becomes the story state and its text is logged; otherwise nothing changes |
| `MainBot.DrinkWater` | main.py:181-184 | drinking leaves the state `Drunk` gives |
| `MainBot.SleepNight` | main.py:186-192 | sleeping leaves the state `Slept` gives |
| `MainBot.ProcessCallback` | main.py:202-243 | the fields after a button are those `CallbackStep` gives |
| `MainBot.InventoryAction` | main.py:206-224 | the `inv_*` branch leaves the state `InvStep` gives |
| `MainBot.WolfChoice` | main.py:226-232 | the wolf branch leaves the state `WolfStep` gives |
| `MainBot.EventStartedOnlyStarts` | main.py:170-174 | the trigger check changes only the log and the story state |
| `MainBot.ExploreEffect` | main.py:156-169 | exploring costs exactly one action point, adds exactly one find to inventory and counter, leaves other items and the stats alone, advances the day-2 count on day 2 |
| `MainBot.ExploreLogsFind` | main.py:167 | the newest line before the trigger check names the find |
| `MainBot.ExhaustedIgnoresExploreAndDrink` | main.py:155-182 | with no action points, exploring and drinking change nothing |
| `MainBot.FirstDay2ExplorationForcesNext` | main.py:161-169 | the first exploration of day 2 makes the next one the forced branch |
| `MainBot.ForcedBranchOnce` | main.py:161-164 | the forced exploration finds 'ветка' and sets the flag |
| `MainBot.BranchFlagStays` | main.py:161-163 | once set, the flag stays set through every command and button, so the branch is forced at most once per game |
| `MainBot.DrinkEffect` | main.py:181-184 | drinking costs one action point, thirst becomes `max(0, thirst - 20)`, the line is logged, nothing else changes |
| `MainBot.SleepEffect` | main.py:186-192 | sleeping gives 5 action points, the next day, the drawn weather and a zero day-2 count. Through `update_stats`, hunger and thirst rise by 10 capped at 100, and hp falls by 10 floored at 0 when either reaches 100. The death line is logged at hp 0, then the new-day line last. Items, counters, karma, the branch flag, story, equipment and stack stay unchanged |
| `MainBot.InvCommandOfJoined` | main.py:206-209 | `inv_<action>_<item>` is cut into that action and item, underscores in the item included |
| `MainBot.InvCommandWithoutItem` | main.py:206-209 | `inv_<action>` has no item |
| `MainBot.DropCallback` | main.py:218-221 | the drop button for an item drops exactly that item |
| `MainBot.DropEffect` | main.py:218-221 | a held item falls by exactly 1 and nothing else counted changes; an item not held changes nothing |
| `MainBot.DropNeverNegative` | main.py:219-220 | drop never makes a count negative |
| `MainBot.WolfEffect` | main.py:226-232 | flee costs 10 hp and 5 karma, fight 20 hp for 10 karma, unclamped; either ends the encounter and logs its outcome |
| `MainBot.CraftCallback` | main.py:240-243 | `craft_<name>` runs `check_craft` on that name and logs its message |
| `MainBot.MessageStepKeepsInvariant` | main.py:155-192 | every typed command keeps the game invariant |
| `MainBot.ExploreKeepsInvariant` | main.py:156-174 | an exploration keeps the invariant, and its trigger check never fires |
| `MainBot.DrinkKeepsInvariant` | main.py:181-184 | drinking keeps the invariant |
| `MainBot.SleepKeepsInvariant` | main.py:186-192 | sleeping keeps the invariant |
| `MainBot.CallbackStepKeepsInvariant` | main.py:206-243 | every button keeps the game invariant |
| `MainBot.InvStepKeepsInvariant` | main.py:206-224 | every `inv_*` action keeps the invariant |
| `MainBot.DropKeepsInvariant` | main.py:218-221 | a drop keeps the invariant |
| `Camp.Game.constructor` | game.py:14-37 | a new game is the state `Fresh` gives |
| `Camp.FreshDefaults` | game.py:14-37 | hp 100, hunger 20, thirst 60, 5 action points, karma 0, day 1, search progress 0 and weight limit 20; one log line; the three starting items with default slot, armor and uses; all seven slots empty |
| `Camp.Game.AddLog` | game.py:39-42 | the fields after `add_log` are the old ones with the capped log appended |
| `Camp.Game.InventoryText` | game.py:52-53 | "🎒 Инвентарь пуст" exactly when nothing is carried; otherwise the header first and the last item's line at the end |
| `Camp.ItemLinesShape` | game.py:52-53 | there is one line per item, and item `i`'s line starts with the bullet, the icon, the name and the opening of the weight, and ends with the item's description |
| `CampHandlers.Sessions.constructor` | handlers.py:5 | the games dictionary starts empty |
| `CampHandlers.Sessions.ProcessCallback` | handlers.py:47-145 | `start_game` installs a fresh game for the player; with no game nothing changes; otherwise the game takes the step `Step` gives, and a successful escape removes it from `games` and leaves it untouched |
| `CampHandlers.Explore` | handlers.py:76-85 | `action_1` leaves the state `Explored` gives |
| `CampHandlers.Drink` | handlers.py:98-101 | `action_3` leaves the state `Drunk` gives |
| `CampHandlers.Sleep` | handlers.py:102-107 | `action_4` leaves the state `Slept` gives |
| `CampHandlers.CatchSignal` | handlers.py:108-119 | `action_5` leaves the state `Signalled` gives |
| `CampHandlers.EscapeChanceFloors` | handlers.py:121 | the chance is 10 plus the floor of karma / 10, as Python's `//` gives it, negative karma included |
| `CampHandlers.EscapeBounds` | handlers.py:120-122 | no roll escapes with karma below -90; every roll escapes with karma of 900 or more |
| `CampHandlers.EscapeEndsGameIff` | handlers.py:120-130 | the escape ends the game exactly when the roll is at most `10 + karma // 10`; otherwise only the failure is logged |
| `CampHandlers.ExploreEffect` | handlers.py:76-82 | with strength left: one action point, hunger -7 and thirst -8 floored at 0, one line logged, nothing else changes |
| `CampHandlers.ExhaustedOnlyLogs` | handlers.py:76-119 | without action points, exploring and the signal only log that rest is needed |
| `CampHandlers.DrinkEffect` | handlers.py:98-101 | thirst +20 capped at 100, no action point spent, nothing else changes but the log |
| `CampHandlers.SleepEffect` | handlers.py:102-107 | the next day, 5 action points, hunger -15 floored at 0, the new day named in the last log line, nothing else changes |
| `CampHandlers.SignalEffect` | handlers.py:108-116 | one action point spent; search progress +5 exactly on a winning coin; nothing else changes but the log |
| `CampHandlers.StubOnlyLogs` | handlers.py:131-145 | each `inv_*` stub only appends its own non-empty line |
| `CampHandlers.FreshInvariant` | handlers.py:60 | a fresh game satisfies the handler invariant |
| `CampHandlers.WithLogKeepsInvariant` | game.py:39-42 | logging keeps the handler invariant |
| `CampHandlers.StepKeepsInvariant` | handlers.py:76-145 | every button that leaves the game in play keeps the invariant |
| `CampHandlers.SignalKeepsInvariant` | handlers.py:108-119 | the signal keeps the invariant |
| `CampHandlers.EscapeChanceInPlay` | handlers.py:120-122 | in every reachable game karma is 0, so the chance is 10 and only rolls 1 to 10 escape |

## Left out

- Telegram and aiogram I/O is not modelled: sending, editing and deleting messages, keyboards attached to replies, `update_or_send_message`, the webhook and the server start. These change no game state.
- `get_ui` (both variants) is not modelled. It only formats the status for display.
- MongoDB `load_game`/`save_game` are not modelled. Each method works on a loaded `Game`, and saving is the caller's.
- The flood check in handlers.py and the `last_request_time` field of main.py's game are left out. Both depend on the wall clock.
- The message-id dictionaries `last_ui_msg_id` and `last_inv_msg_id` are left out. They only track chat messages.
- `choice` and `randint` are not modelled. The sampled item, the weather, the coin and the roll are parameters, restricted to the ranges the source draws from.
- `message.text.lower()` is not modelled. `MainBot.ProcessMessage` receives the text already lower-cased.
- The `инвентарь` command, `inv_craft` in main.py, and `action_2` and `inv_back` in handlers.py only send messages. The model leaves the game unchanged for them.
- The 'cat' and 'peek' buttons are a `pass` in main.py, and the model leaves the game unchanged.
- The `kb` entries of the events table are never read, so the model leaves them out. After an event starts, main.py:176-177 looks up `'kb_name'`, which no event defines, so no event keyboard is ever chosen.
- stories.py:9, 22 and 35 name `wolf_kb`, `cat_kb` and `peek_den_kb` without importing or defining them, so building the events table would raise `NameError`. The model assumes these names are in scope, like the names handlers.py uses.
- `Stories.TriggerEvent` returns the event itself rather than its key. The keys are distinct, so `EVENTS[key]` is that event.
- The equipment keys of game.py are the enum `Camp.Slot` rather than the strings 'head' … 'trinket'.
- `CampHandlers.Sessions.ProcessCallback` describes only the calling player's game. Its `modifies` clause keeps every other game object unchanged. The model does not require the games of different players to be distinct objects, though the source always creates a new one.
- `state.py`, which defines the `games` dictionary, is not part of this model. `CampHandlers.Sessions` stands for it.
- `Counters.Add`, `MainBot.ExploreForest`, `Crafts.Consummate` and the drop branch of `MainBot.InventoryAction` treat the inventory and the resource counters as Python `Counter`s: a missing item reads 0, and `+= 1` inserts it. That holds for a game built by `Game()`. `load_game` copies the stored document back into the game with `setattr`, so a restored game holds plain dictionaries instead. On a plain dictionary, a new item's `+= 1` (main.py:166-167, crafts.py:40-41) and the `> 0` test on an item not held (main.py:219) raise `KeyError`, and the handler stops before saving. The model does not capture that failure.
- handlers.py uses `random`, `time`, `InlineKeyboardMarkup`, `InlineKeyboardButton`, `dp` and `bot` without importing or defining them. The model assumes these names are in scope, as the rest of the bot provides them.

# Joseon king upgrade: the progression engine

A single-screen enhancement ("gacha") game. The player pays money to try
to raise an item's level. Each level shows the portrait of the next Joseon
king. An attempt can succeed, keep the level, drop it by one or destroy
the item. The item can be sold for money. Raising it to the last king at
level 27 ends the game; Enter then starts over.

This project models the engine of that game in Dafny:

- `rules.dfy` (module `Rules`): the integer rate rules (`success_rate`,
  `down_rate`, `break_rate`), the attempt cost (`cost_now`) and the sell
  price (`sell_price`), as functions of the level, with their ranges,
  monotonicity and the table values.
- `engine.dfy` (module `Engine`): the four globals `king_i`, `plus_level`,
  `money`, `game_state` as one value `Progress`, and `reset_item`,
  `reset_game`, `start_ending`, `do_upgrade`, `do_sell` as pure
  transitions. Each returns an `Outcome` standing for the popup the source
  shows. `Consistent` is the invariant of reachable states:
  - money is non-negative;
  - while playing, the king index equals the level and is at most 26;
  - in the ending, the level is 27 and the king index is 26.

  It also holds the lemma that the rates are exact percentages of the 100
  rolls.
- `frame.dfy` (module `Frame`): the event dispatch of one frame of the main
  loop. It has pygame events, the click rectangles, `running`, and the
  gating by `game_state`. The lemmas are about whole batches of events.
- `session.dfy` (module `Session`): class `Game`, whose fields are the
  globals. Its methods update them in place, step by step, as the source
  does. Each method's postcondition ties the new fields to the `Engine`
  transition. `HandleEvents` is the `for e in pygame.event.get()` loop,
  proved against `Frame.Run`.

Randomness is an input. Each `random.randint(1, 100)` is a value of the
subset type `Roll` (1..100). An upgrade receives a `Draw` of two rolls. The
second roll is read only when the first fails, as in the source.

The cost uses exact rational arithmetic: `Cost(n) = floor(500 * 118^n / 100^n)`.
The source computes `int(500 * 1.18 ** n)` in double precision. The 0.90
of the sell price is the fraction 9/10.

In the source, `sell_price(lv)` takes its cost term from the global
`plus_level`, not from `lv`. It is only ever called with `plus_level`, so
`Rules.SellPrice(level)` uses one level for both terms.

`do_upgrade` and `do_sell` do not check `game_state` themselves. The
gating is done by the event loop, and the model keeps it there. So
`Engine.Upgrade`, `Engine.Sell`, `Session.Game.Upgrade` and
`Session.Game.Sell` preserve `Consistent` only from the play state, and `Frame.EndingIsFrozen` states the gating.

## Model

| member | source | states |
|---|---|---|
| `Rules.SuccessRate` | main.py:93-96 | lies in [10, 100]; is 100 exactly for levels up to 2; is 10 exactly from level 20; from level 3 to 19 it is 100 - (level - 2) * 5 |
| `Rules.DownRate` | main.py:98-103 | lies in [0, 15]; is 0 exactly below level 5; is capped at 15 exactly from level 9; from level 5 to 8 it is (level - 4) * 3 |
| `Rules.BreakRate` | main.py:105-110 | lies in [0, 5]; is 0 exactly below level 10; is capped at 5 exactly from level 14; from level 10 to 13 it is level - 9 |
| `Rules.FailureBandsFit` | main.py:98-110 | a level that can destroy downgrades at the full 15 percent; the two failure bands together cover at most 20 of the 100 rolls |
| `Rules.SuccessRateNonIncreasing` | main.py:93-96 | the success chance never rises with the level |
| `Rules.FailureRatesNonDecreasing` | main.py:98-110 | the downgrade and destruction chances never fall with the level |
| `Rules.Cost` | main.py:87-88 | the attempt cost is at least BASE_COST = 500, and exactly 500 at level 0 |
| `Rules.CostStep` | main.py:87-88 | one more level costs strictly more |
| `Rules.CostStrictlyIncreasing` | main.py:87-88 | the cost curve is strictly increasing in the level |
| `Rules.SellPrice` | main.py:112-113 | the sell price is at least level * SELL_LV_BONUS and at least 90% of the base cost |
| `Rules.SellPriceStrictlyIncreasing` | main.py:112-113 | a higher level always sells for more |
| `Rules.RateTable` | main.py:45-113 | len(KINGS) is 27; the table values of the rates at their break points; the first costs 500, 590, 696 |
| `Engine.InitialConsistent` | main.py:64-74 | the initial globals (level 0, king 0, START_MONEY, play) are a consistent state |
| `Engine.ConsistentKingInRange` | main.py:327-335 | in every consistent state, KINGS[king_i] and FACES[king_i + 1] are valid lookups |
| `Engine.ResetItem` | main.py:190-193 | level and king index become 0; money and game state untouched; keeps a playing state consistent |
| `Engine.ResetGame` | main.py:195-203 | whatever the prior state, the result is the initial state: item reset, START_MONEY, play |
| `Engine.StartEnding` | main.py:205-207 | the state becomes the ending; level, king and money are untouched |
| `Engine.Attempt` | main.py:227-264 | the first roll succeeds iff it is at most the success rate; otherwise the second roll destroys iff it is in [1, b], downgrades iff it is in (b, b + d], and keeps otherwise, with the rates of the pre-attempt level |
| `Engine.Upgrade` | main.py:218-264 | unaffordable: NotEnoughMoney and nothing changes; affordable: the cost is deducted exactly once whatever the outcome; success raises level by 1 and king by 1 unless at the last king; destroy resets both to 0; downgrade lowers both by 1 floored at 0; keep leaves both; ending iff a success lands on the last king at level 27 or more; money stays non-negative; consistent playing states stay consistent |
| `Engine.Sell` | main.py:266-277 | refused and no change iff level is 0; otherwise money rises by SellPrice(level) (at least level * 1000), level and king reset to 0, game state untouched; keeps a consistent playing state consistent |
| `Engine.EndingOnlyFromLastKing` | main.py:232-242 | from a consistent playing state, an upgrade ends the game iff the item is at the last king (level 26), the attempt is affordable and the success roll comes in |
| `Engine.SuccessRateIsExact` | main.py:227-232 | exactly SuccessRate(level) of the 100 possible first rolls succeed |
| `Engine.FailureRatesAreExact` | main.py:245-264 | after any failing first roll, of the 100 possible second rolls exactly BreakRate(level) destroy, DownRate(level) downgrade and the rest keep the item |
| `Frame.TargetsDisjoint` | main.py:174-177 | the three click targets do not overlap: no point is on two of the portrait, the upgrade button and the sell button |
| `Frame.Dispatch` | main.py:293-311 | `running` turns false on Quit, and on Esc in the ending; in the ending only Enter changes the game, by a full reset; in play only a left click on the portrait or upgrade button upgrades and one on the sell button sells; consistency is preserved |
| `Frame.Run` | main.py:293-311 | folds `Dispatch` over the frame's batch of events in order, each event with its own draw; `running` true at the end means it was true at the start; no batch leads from a reachable state to one with negative money or the king index outside the table |
| `Frame.RunAppend` | main.py:293-311 | dispatching a batch in two consecutive parts gives the same globals and `running` as dispatching it whole |
| `Frame.RunStops` | main.py:293-295 | a Quit anywhere in the batch leaves `running` false |
| `Frame.StaysStopped` | main.py:293-304 | once `running` is false after some prefix of the batch, it is still false at the end of the batch |
| `Frame.EndingIsFrozen` | main.py:298-304 | in the ending, a batch without Enter changes none of the globals, so no upgrade or sale takes place |
| `Frame.EnterRestarts` | main.py:298-301 | in the ending, Enter restores the initial state and keeps the loop running |
| `Session.Game.constructor` | main.py:64-74 | the globals start as the initial state, which is consistent |
| `Session.Game.ResetItem` | main.py:190-193 | the fields change as `Engine.ResetItem` says |
| `Session.Game.ResetGame` | main.py:195-203 | the fields change as `Engine.ResetGame` says, and the result is consistent |
| `Session.Game.StartEnding` | main.py:205-207 | the fields change as `Engine.StartEnding` says |
| `Session.Game.Upgrade` | main.py:218-264 | fields and returned outcome are those of `Engine.Upgrade`; a consistent playing state stays consistent |
| `Session.Game.Sell` | main.py:266-277 | fields and returned outcome are those of `Engine.Sell`; a consistent playing state stays consistent |
| `Session.Game.HandleEvents` | main.py:293-311 | after the batch, fields and `running` are those of `Frame.Run` from `running = true`; consistency is preserved |

## Left out

- Rules.Cost: computes `floor(500 * 118^n / 100^n)` exactly instead of `int(500 * 1.18 ** n)` in IEEE double precision. Floating-point rounding is not modelled.
- Rules.SellPrice: uses the exact fraction 9/10 for SELL_MULT = 0.90 and the current level for both terms. Floating-point rounding is not modelled, and neither is the fact that the cost term reads the global `plus_level` rather than `lv` (the `lv * SELL_LV_BONUS` term does use `lv`); the two always agree because the source calls it only with `plus_level`.
- Random number generation: `random.randint(1, 100)` is replaced by `Roll` parameters. The order in which the generator is consumed is not modelled; the second draw is simply not read after a success.
- Popup and portrait-mark state: `set_popup`, `set_face_x`, `popup_text`/`popup_timer`, `face_mark`/`face_mark_timer` and their decay by `dt`. These are float-timed presentation. The `Outcome` returned by an upgrade or a sale stands for the popup.
- `start_ending`'s `ending_lines`: display text only. Only the change of `game_state` is modelled.
- Everything pygame does: initialisation, window, fonts, `draw_btn`, drawing, `display.flip`, the clock and the outer `while running` loop around frames. The event batch of one frame is an input.
- Asset and sound loading (`resource_path`, `load_face`, `face_placeholder`, `FACES`, the sound objects, `play`). This is file-system and library I/O whose failures the source swallows.

# Vending machine and water cooler state machines, in Dafny

This project models the two event-driven state machines of the repository and proves what they promise.

- **The coin-operated vending machine** (`vending_machine_CFL.py`). It has a product and price table, a coin table, and four states: `waiting`, `add_coins`, `deliver_product` and `count_change`. It returns change greedily, largest coin first. Its `deliver_product` entry hook calls `go_to_state` again.
- **The water bottle filling station** (`watercooler.py`). It has three states: `waiting`, `filling` and `timedout`. A valve is open while filling, and a filling deadline is set to `now + FILL_TIMEOUT`.

Both machines have the same engine, written out in each file (vending_machine_CFL.py:94-111 and watercooler.py:64-78), and the model does the same. `add_state` files a state under its name. `go_to_state` runs `on_exit` of the current state, looks up the new state by name and runs its `on_entry`. `update()` runs the current state's `update`.

Each machine is modelled twice, and the two are tied together:

- **As a value.** A `Context` datatype holds the machine's fields. Functions (`GoTo`, `Enter`, `Step`, `Drive`, …) say what each hook and each `update()` does to it.
- **As a class.** `Vending.VendingMachine` and `WaterCooler.WaterCoolerMachine` have the same fields and one method per Python method. Each method's `ensures` states that it changes the fields exactly as the matching function says.
- **The lemmas** in `VendingProofs` and `WaterCoolerProofs` prove the machines' properties about those functions.
- **Effects.** What a machine does to the outside world is recorded in order in a `trace` field: hook calls, "Buzz... Whir... Click...", "Change due", "Returning", "opening valve", "closing valve" and the progress dot.
- **Lookup failures.** A dictionary lookup that raises `KeyError` (an unregistered state name, or `PRODUCTS[event]` on an event that names no product) is modelled as `raised == true`. The context returned is the one reached at the moment of the raise. In particular `on_exit` has already run.

`ChangeMaking` holds the change arithmetic:

- a model of `sorted(values, reverse=True)` on integers;
- the inner `while` loop (`PayOut`) and the outer `for` loop (`Greedy`) of `CountChangeState.update`;
- a proof that, for the Canadian coins 200, 100, 25, 10 and 5, the greedy change uses the fewest coins.

Three details of the code that the model keeps as written:

- **Constants are fixed.** The product, coin and timeout constants are fixed, as in the source.
- **`stop_time` persists.** `stop_time` stays set after `filling` is left. The deadline test is `stop_time <= now`.
- **Change-making uses the first five sorted values.** The change loop runs over the first five sorted coin values.

## Model

| member | source | states |
|---|---|---|
| ChangeMaking.SortDescending | vending_machine_CFL.py:91 | `sorted(values, reverse=True)`: the result is in non-increasing order and is a permutation of its argument |
| ChangeMaking.SortIncreasing | vending_machine_CFL.py:91 | sorting a strictly increasing sequence in descending order reverses it |
| ChangeMaking.PayOut | vending_machine_CFL.py:206-208 | the inner loop for one coin leaves less than that coin due, and never more than was due |
| ChangeMaking.PayOutPays | vending_machine_CFL.py:206-208 | the inner loop returns only that coin, and the value returned plus what is left is what was due |
| ChangeMaking.Greedy | vending_machine_CFL.py:204-208 | the whole loop: the coins returned plus what is left equal what was due; for a non-negative amount, what is left is non-negative and below the last denomination |
| ChangeMaking.GreedyUsesDenominations | vending_machine_CFL.py:204-208 | every coin returned is one of the denominations |
| ChangeMaking.GreedyNonIncreasing | vending_machine_CFL.py:204-208 | with the denominations in descending order, the coins come out largest first |
| ChangeMaking.GreedyBeatsCounts | vending_machine_CFL.py:195 | for any counts of 200, 100, 25, 10 and 5 coins, the greedy change for their total uses no more coins |
| ChangeMaking.GreedyIsOptimal | vending_machine_CFL.py:195 | for the total of any sequence of Canadian coins, the greedy change pays it in full and uses no more coins than that sequence |
| ChangeMaking.CoinTotal | vending_machine_CFL.py:73-78 | any total of Canadian coins is a non-negative multiple of 5 |
| ChangeMaking.SumNonNegative | vending_machine_CFL.py:73-78 | no sequence of coin values adds up to a negative amount |
| ChangeMaking.GreedyPaysCoinTotal | vending_machine_CFL.py:204-209 | the greedy change for any total of Canadian coins leaves nothing due |
| ChangeMaking.GreedyPaysMultiplesOf5 | vending_machine_CFL.py:204-209 | with multiples-of-5 denominations ending in 5, any non-negative multiple of 5 is paid out in full |
| Vending.CoinValuesOf | vending_machine_CFL.py:88-90 | the append loop collects `COINS[k][1]` for each key, in key order |
| Vending.CoinValuesIncreasing | vending_machine_CFL.py:73-78 | in dict order the coin values strictly increase, and reversed they are 200, 100, 25, 10, 5 |
| Vending.CoinKeysListCoins | vending_machine_CFL.py:73-78 | the key order used by the `for k in self.COINS` loop lists every key of `COINS` exactly once |
| Vending.SortedCoinValues | vending_machine_CFL.py:87-91 | the collected coin values, sorted in descending order, are exactly 200, 100, 25, 10, 5 |
| Vending.Returned | vending_machine_CFL.py:207 | one "Returning" effect per coin, in order |
| Vending.Initial | vending_machine_CFL.py:80-91 | `__init__`'s fields: no state, no states, no event, no money, no change due, and the machine is well formed |
| Vending.AddStateTo | vending_machine_CFL.py:94-96 | `add_state` adds the state's name to the table and files the state under it; other entries and all other fields are unchanged; states stay under their own names |
| Vending.AddCoinTo | vending_machine_CFL.py:113-115 | `add_coin` changes only the amount, raising it by a positive multiple of 5 |
| Vending.Exit | vending_machine_CFL.py:140-141 | the exit hook only appends one "exiting" effect for the current state to the trace |
| Vending.GoTo | vending_machine_CFL.py:98-105 | `go_to_state` never changes the state table or the coin values. An unregistered name raises, leaving the state as it was. Any registered name other than `deliver_product` makes that state current, changing only the state and the trace |
| Vending.Enter | vending_machine_CFL.py:104-105 | the entry hooks never change the state table or the coin values; every entry hook except `deliver_product`'s changes only the trace and never raises |
| Vending.DeliverProductEntry | vending_machine_CFL.py:177-189 | the delivery hook, including its nested transition, keeps the state table and coin values |
| Vending.WaitingUpdate | vending_machine_CFL.py:150-153 | a coin adds its value to the amount and moves to `add_coins`, raising exactly when `add_coins` is not registered; any other event keeps the state and the amount; the change due is untouched |
| Vending.AddCoinsUpdate | vending_machine_CFL.py:159-171 | RETURN, with `count_change` registered, moves the whole amount to the change due and goes to `count_change`; a coin is added to the amount; a product costing more than the amount, or any other event, changes nothing |
| Vending.CountChangeUpdate | vending_machine_CFL.py:203-210 | it raises exactly when the greedy loop pays everything and `waiting` is not registered; with nothing left due it moves to `waiting`, otherwise it stays; the amount is kept; the change due never grows and, if it was non-negative, ends below 5 |
| Vending.Step | vending_machine_CFL.py:107-111 | `update()` keeps the machine well formed (states under their names, coin values 200..5) |
| Vending.Drive | vending_machine_CFL.py:272-279 | any run of events keeps the machine well formed |
| Vending.VendingMachine.constructor | vending_machine_CFL.py:80-91 | `__init__` leaves no state, no states, no event, no money, and the coin values collected by the loop and sorted descending; the machine is well formed |
| Vending.VendingMachine.AddState | vending_machine_CFL.py:94-96 | `add_state` files the state under its name and changes nothing else, keeping the machine well formed |
| Vending.VendingMachine.AddCoin | vending_machine_CFL.py:113-115 | `add_coin` adds the coin's value to the amount |
| Vending.VendingMachine.OnExit | vending_machine_CFL.py:140-141 | the exit hook records the exit and nothing else |
| Vending.VendingMachine.GoToState | vending_machine_CFL.py:98-105 | changes the fields exactly as `GoTo` says, raising on an unregistered name |
| Vending.VendingMachine.OnEntry | vending_machine_CFL.py:198-201 | changes the fields exactly as `Enter` says: `count_change` announces the change due, `deliver_product` runs its hook |
| Vending.VendingMachine.DeliverProductOnEntry | vending_machine_CFL.py:177-189 | changes the fields exactly as `DeliverProductEntry` says, re-entering `GoToState` |
| Vending.VendingMachine.Update | vending_machine_CFL.py:107-111 | changes the fields exactly as `Step` says, keeping the machine well formed |
| Vending.VendingMachine.WaitingStateUpdate | vending_machine_CFL.py:150-153 | changes the fields exactly as `WaitingUpdate` says |
| Vending.VendingMachine.AddCoinsStateUpdate | vending_machine_CFL.py:159-171 | changes the fields exactly as `AddCoinsUpdate` says |
| Vending.VendingMachine.CountChangeStateUpdate | vending_machine_CFL.py:203-210 | changes the fields exactly as `CountChangeUpdate` says |
| Vending.VendingMachine.ReturnCoins | vending_machine_CFL.py:204-208 | the nested loop leaves what `Greedy` leaves due and appends one "Returning" effect per greedy coin |
| Vending.VendingMachine.ReturnDenomination | vending_machine_CFL.py:204-208 | one pass of the outer loop extends the greedy change over the first `i` coin values to the first `i + 1` |
| Vending.VendingMachine.ReturnCoinsOf | vending_machine_CFL.py:206-208 | the inner loop pays out as `PayOut` says, one "Returning" effect per coin |
| Vending.VendingMachine.ButtonAction | vending_machine_CFL.py:117-120 | `button_action` is `update()` with the event set to RETURN, keeping the machine well formed |
| VendingProofs.InitialCoinValues | vending_machine_CFL.py:80-91 | after `__init__`, the coin values are the collected values sorted, non-increasing and the same multiset |
| VendingProofs.Configured | vending_machine_CFL.py:94-96 | after the four `add_state` calls, exactly the four states are registered under their names and nothing else changed |
| VendingProofs.AddStateKeepsWellNamed | vending_machine_CFL.py:94-96 | `add_state` keeps every state under its own name and adds exactly its name |
| VendingProofs.ConfigureThenWait | test_vending_machine_CFL.py:27-34 | set-up then `go_to_state('waiting')` gives `waiting`, only the entry in the trace, and a machine that keeps the invariant |
| VendingProofs.CoinValues | vending_machine_CFL.py:73-78 | every coin is a positive multiple of 5 cents |
| VendingProofs.Prices | vending_machine_CFL.py:63-70 | every price is a positive multiple of 5 cents |
| VendingProofs.EventsDistinct | vending_machine_CFL.py:63-78 | coin codes, product names and RETURN are disjoint |
| VendingProofs.GoToExitsThenEnters | vending_machine_CFL.py:98-105 | the old state's exit, then the new state's entry, nothing else changing; count_change's entry announces the change due |
| VendingProofs.GoToUnknownState | vending_machine_CFL.py:100-103 | an unknown name raises after the exit hook ran, the current state unchanged |
| VendingProofs.StepWithoutState | vending_machine_CFL.py:107-111 | `update()` with no current state changes nothing |
| VendingProofs.GoToDeliverProduct | vending_machine_CFL.py:98-105 | entering `deliver_product` runs its hook on the context that exited the old state and entered it |
| VendingProofs.DeliverProductCharges | vending_machine_CFL.py:177-189 | the hook for a product: no money held, change owed is amount minus price, product dispensed, then `count_change` if change is owed, else `waiting` |
| VendingProofs.DeliverProductRuns | vending_machine_CFL.py:177-189 | the whole `go_to_state('deliver_product')`: either the price lookup raises, or the full charge-dispense-move-on outcome |
| VendingProofs.DeliverProductNeverRests | vending_machine_CFL.py:186-189 | the transition raises exactly when the event names no product, and otherwise never rests in `deliver_product` |
| VendingProofs.WaitingStep | vending_machine_CFL.py:150-153 | in `waiting` a coin adds exactly its value and moves to `add_coins`; every other event changes nothing |
| VendingProofs.AddCoinsCoin | vending_machine_CFL.py:164-166 | in `add_coins` a coin adds its value and stays |
| VendingProofs.AddCoinsReturn | vending_machine_CFL.py:160-163 | RETURN makes the whole amount change due, zeroes the amount and enters `count_change` |
| VendingProofs.AddCoinsIgnored | vending_machine_CFL.py:167-171 | a product above the amount, or an unknown event, changes nothing |
| VendingProofs.Purchase | vending_machine_CFL.py:167-169 | buying a covered product in one `update()`: amount 0, change = amount − price ≥ 0, product dispensed, `count_change` or `waiting`, with the full trace |
| VendingProofs.CountChangeStep | vending_machine_CFL.py:203-210 | one `update()` in `count_change` returns the greedy coins and keeps what is left; `waiting` exactly when nothing is left |
| VendingProofs.CountChangeCoins | vending_machine_CFL.py:204-208 | for a non-negative amount the coins come out largest first, are denominations, sum to the amount less what is left, and less than 5 is left |
| VendingProofs.CountChangeFewestCoins | vending_machine_CFL.py:195 | no sequence of coins worth the change due is shorter than the coins returned |
| VendingProofs.CountChangeNothingDue | vending_machine_CFL.py:203-210 | with nothing due, `count_change` goes straight to `waiting` without returning a coin |
| VendingProofs.CountChangeCompletes | vending_machine_CFL.py:203-210 | under the invariant, one `count_change` update pays everything and returns to `waiting` |
| VendingProofs.WaitingKeepsInv | vending_machine_CFL.py:150-153 | `update()` in `waiting` keeps the invariant and never raises |
| VendingProofs.AddCoinsKeepsInv | vending_machine_CFL.py:159-189 | `update()` in `add_coins` keeps the invariant and never raises |
| VendingProofs.PurchaseKeepsInv | vending_machine_CFL.py:167-189 | an affordable product pressed in `add_coins` keeps the invariant through the nested delivery transition and never raises |
| VendingProofs.StepKeepsInv | vending_machine_CFL.py:107-111 | every `update()` keeps the invariant and never raises. The invariant: amounts are non-negative multiples of 5; money is held only in `add_coins`, change owed only in `count_change`; never resting in `deliver_product` |
| VendingProofs.DriveKeepsInv | vending_machine_CFL.py:272-279 | every run of events keeps the invariant and never raises |
| VendingProofs.CoinsAccumulate | vending_machine_CFL.py:150-166 | a run of coins from `waiting` ends in `add_coins` holding their total |
| VendingProofs.ScenarioCoins | test_vending_machine_CFL.py:36-60 | the test's coins are coins, with running totals 200, 300, 325, 335 and 340 |
| VendingProofs.CoinScenario | test_vending_machine_CFL.py:36-60 | $2, $1, ¢25, ¢10, ¢5 after set-up: in `add_coins` after each coin, holding 200, 300, 325, 335, 340 |
| WaterCooler.Initial | watercooler.py:58-62 | `__init__`'s fields: no state, no states, no event, no effects |
| WaterCooler.AddStateTo | watercooler.py:64-65 | `add_state` adds the state's name to the table and files the state under it; other entries and all other fields are unchanged; states stay under their own names |
| WaterCooler.Exit | watercooler.py:119-120 | the exit hook appends an "exiting" effect for the current state, then "closing valve" when that state is `filling`, and changes nothing else |
| WaterCooler.Enter | watercooler.py:115-117 | the entry hook appends an "entering" effect; entering `filling` then opens the valve and sets the deadline to `now + 5`; entering `timedout` (lines 137-140) closes the valve; entering `waiting` does nothing more; the deadline is otherwise kept |
| WaterCooler.GoTo | watercooler.py:67-73 | `go_to_state` never changes the state table or the event. It raises exactly when the name is not registered, and then the state is unchanged. Otherwise the named state becomes current, and the deadline changes only on entering `filling` |
| WaterCooler.WaitingUpdate | watercooler.py:105-107 | it raises exactly on DETECT when `filling` is not registered. Otherwise, for a well-formed table, DETECT moves to `filling` with the deadline `now + 5`, and any other reading changes neither state nor deadline |
| WaterCooler.FillingUpdate | watercooler.py:122-129 | UNDETECT goes to `waiting`; otherwise a reached deadline (`stop_time <= now`) goes to `timedout`; otherwise the state stays; it raises exactly when the target is not registered; the deadline is kept |
| WaterCooler.TimedoutUpdate | watercooler.py:142-144 | UNDETECT goes to `waiting`, raising exactly when `waiting` is not registered; any other reading keeps the state; the deadline is kept |
| WaterCooler.Step | watercooler.py:75-78 | `update()` never changes the state table or the event |
| WaterCooler.Drive | watercooler.py:162-164 | a run of readings never changes the state table |
| WaterCooler.WaterCoolerMachine.constructor | watercooler.py:58-62 | `__init__` leaves no state, no states, no event |
| WaterCooler.WaterCoolerMachine.AddState | watercooler.py:64-65 | `add_state` files the state under its name |
| WaterCooler.WaterCoolerMachine.OnExit | watercooler.py:119-120 | the exit hook; leaving `filling` closes the valve |
| WaterCooler.WaterCoolerMachine.OnEntry | watercooler.py:115-117 | the entry hook; entering `filling` opens the valve and sets the deadline, entering `timedout` closes the valve |
| WaterCooler.WaterCoolerMachine.GoToState | watercooler.py:67-73 | changes the fields exactly as `GoTo` says, raising on an unregistered name |
| WaterCooler.WaterCoolerMachine.Update | watercooler.py:75-78 | changes the fields exactly as `Step` says |
| WaterCooler.WaterCoolerMachine.WaitingStateUpdate | watercooler.py:105-107 | changes the fields exactly as `WaitingUpdate` says |
| WaterCooler.WaterCoolerMachine.FillingStateUpdate | watercooler.py:122-129 | changes the fields exactly as `FillingUpdate` says |
| WaterCooler.WaterCoolerMachine.TimedoutStateUpdate | watercooler.py:142-144 | changes the fields exactly as `TimedoutUpdate` says |
| WaterCoolerProofs.ValveAfter | watercooler.py:116-140 | only the valve effects change whether the valve is open |
| WaterCoolerProofs.Configured | watercooler.py:64-65 | after the three `add_state` calls exactly the three states are registered under their names and nothing else changed |
| WaterCoolerProofs.AddStateKeepsWellNamed | watercooler.py:64-65 | `add_state` keeps every state under its own name and adds exactly its name |
| WaterCoolerProofs.ConfigureThenWait | test_watercooler.py:22-29 | set-up then `go_to_state('waiting')` gives `waiting` with the valve closed, keeping the invariant |
| WaterCoolerProofs.GoToUnknownState | watercooler.py:68-71 | an unknown name raises after the exit hook ran (closing the valve when leaving `filling`), the state unchanged |
| WaterCoolerProofs.StepWithoutState | watercooler.py:75-78 | `update()` with no current state changes nothing |
| WaterCoolerProofs.WaitingStep | watercooler.py:105-107 | DETECT opens the valve, sets the deadline `now + 5` and moves to `filling`; other events change nothing |
| WaterCoolerProofs.FillingUndetect | watercooler.py:122-124 | in `filling`, UNDETECT closes the valve and moves to `waiting`, whether or not the deadline has passed |
| WaterCoolerProofs.FillingTimeout | watercooler.py:125-126 | in `filling`, no UNDETECT and `stop_time <= now`: the valve closes and the machine moves to `timedout`, keeping the deadline |
| WaterCoolerProofs.FillingContinues | watercooler.py:127-129 | in `filling`, no UNDETECT before the deadline: only a progress dot |
| WaterCoolerProofs.TimedoutStep | watercooler.py:142-144 | in `timedout`, UNDETECT moves to `waiting`; DETECT and anything else are ignored |
| WaterCoolerProofs.StepFollowsDiagram | watercooler.py:14-18 | every `update()` follows the documented transition diagram, never raises, and changes the deadline only when it enters `filling` |
| WaterCoolerProofs.GoToKeepsValve | watercooler.py:67-73 | any transition to a registered state leaves the valve open exactly when the new state is `filling` |
| WaterCoolerProofs.StepKeepsInv | watercooler.py:75-78 | every `update()` keeps the valve open exactly in `filling` and never raises |
| WaterCoolerProofs.DriveKeepsInv | watercooler.py:162-164 | every run of readings keeps that invariant and never raises |
| WaterCoolerProofs.FillingUntilDeadline | watercooler.py:122-129 | readings before the deadline without UNDETECT keep the machine filling with the same deadline, one dot each |
| WaterCoolerProofs.TimesOutAtDeadline | watercooler.py:115-129 | without UNDETECT the first reading at or after the deadline times the machine out and the valve is closed |
| WaterCoolerProofs.Scenario | test_watercooler.py:34-65 | DETECT, UNDETECT, DETECT, a tick at the deadline, DETECT, UNDETECT: filling, waiting, filling, timedout, timedout, waiting |
| WaterCoolerProofs.FillEmptyFill | test_watercooler.py:34-50 | DETECT, UNDETECT, DETECT at time 0 from `waiting`: filling, waiting, filling, ending with the deadline 5 and DETECT still stored |
| WaterCoolerProofs.TimeoutThenRelease | test_watercooler.py:52-65 | filling with a deadline at or before 5 and DETECT stored: a tick at 5 times out, DETECT keeps `timedout`, UNDETECT returns to `waiting` |

## Left out

- **Graphical interface and main loops.** The PySimpleGUI window, its event loop and the balance display (vending_machine_CFL.py:227-284) are user interface. `Drive` stands for "store the event, call `update()`".
- **Hardware.** The gpiozero detection, the servo pulse with its one-second sleep, and the Raspberry Pi button callback wiring are foreign hardware calls. `ButtonAction` is modelled as a plain call, not as a call from another thread.
- **Keyboard and clock plumbing.** The Windows keyboard reader `get_event`, the water cooler's main loop and `time.sleep(0.2)` are I/O and real-time plumbing. The clock is an integer `now` passed to each call.
- **Printed text.** Prints are recorded as abstract effects, not as their text. The float formatting of "Change due: $%0.2f" is not modelled. Neither are the `log`/`TESTING` debug prints.
- **The unused `timeout` field.** The water cooler's `timeout = 0.0` is never read.
- **`stop_time` before the first fill.** In the source the attribute does not exist until `filling` is first entered. The model starts it at 0. The deadline is only read in `filling`, which always sets it first.
- **One clock sample per update.** `FillingState.update` and `FillingState.on_entry` each call `time.monotonic()`. The model uses a single `now` for one `update()`, including the deadline set by an entry inside it.
- **The coins' display labels.** `COINS`' first component is kept in the table but nothing reads it.
- Vending.VendingMachine.AddCoin, Vending.AddCoinTo: `add_coin` raises `KeyError` on an unknown coin code. The model requires a known coin, because both callers test membership first.
- Vending.VendingMachine.ReturnCoins: `coin_values[coin_index]` would raise if the list were shorter than five. The model requires five positive values, which the constructor guarantees.
- WaterCooler.Step, Vending.Step: the event is never cleared after `update()`, as in the source. A later `update()` without a new event sees the old one (the water-cooler scenario relies on this).

# shift-trainer, modelled in Dafny

shift-trainer is a console drill for the two shift keys. It shows a character that is typed
with one shift key held, waits for a shift press, scores it, and prints the mean reaction
time and the valid percentage when it is cancelled. This project models its sequential core
in `shift_trainer.py`:

- `keys.dfy` (module `Keys`): key values, `SHIFT_KEYS` and the "is a shift key" test.
- `trial_generator.dfy` (module `Trials`): the two layout tables and `_get_random_key`. The
  two `random.choice` results are passed in as a `Pick` (an index into `SHIFT_KEYS`, then an
  index into the chosen table).
- `train_loop.dfy` (module `Session`): the counting and the final report of `_train_loop`, as
  the method `TrainLoop`. Its `while true` loop takes the random draws, the shifts that
  `get_shift` delivers and the elapsed time as inputs. Cancellation means that no press is
  left. The printed letters and OK/False lines are returned as sequences instead of printed.
- `shifts_reader.dfy` (module `Reader`): `ShiftsReader` as a class. Its nullable field
  `handlerFuture` is the one-slot `_handler_future`, and the loop's `call_soon_threadsafe`
  queue is the sequence `EventLoop.scheduled`.

Notes on the code:

- `LEFT_SHIFT_MAP` has 26 entries and `RIGHT_SHIFT_MAP` has 21.
- `_handle_press` (shift_trainer.py:33-35) never clears the slot after it schedules a
  resolution. Every further shift press before the next `get_shift` schedules another
  `set_result` on the same future. `Reader.ScheduledByAllTargetsSlot`, `Reader.HandlePresses`
  and `Reader.DoublePress` state this.
- Cancellation arrives only at the `await` in `get_shift` (shift_trainer.py:81). By then the
  cancelled iteration has already drawn and printed its letter, so `TrainLoop` prints one
  letter more than it scores.

## Model

| member | source | states |
|---|---|---|
| `Keys.IsShiftIffInShiftKeys` | shift_trainer.py:34 | the test `key == Key.shift or key == Key.shift_r` holds exactly for the members of `SHIFT_KEYS` |
| `Trials.ValidPickIsInRange` | shift_trainer.py:66-70 | a valid pick is exactly an index into `SHIFT_KEYS` plus an index into the chosen side's table, the ranges `random.choice` draws from |
| `Trials.GetRandomKey` | shift_trainer.py:64-71 | the returned shift is the `SHIFT_KEYS` entry that was picked, and so it is one of the two shift keys |
| `Trials.LetterFromChosenTable` | shift_trainer.py:66-70 | with `Key.shift` the letter is in `LEFT_SHIFT_MAP`, otherwise it is in `RIGHT_SHIFT_MAP` |
| `Trials.TrialReachable` | shift_trainer.py:64-71 | every letter of a side's table, paired with that side, is returned for some pick |
| `Trials.TableSizes` | shift_trainer.py:51-58 | the left table has 26 entries and the right table has 21 |
| `Trials.LeftShiftMapMembers` | shift_trainer.py:51-54 | membership in `LEFT_SHIFT_MAP` is the listed set of 26 characters |
| `Trials.RightShiftMapMembers` | shift_trainer.py:55-58 | membership in `RIGHT_SHIFT_MAP` is the listed set of 21 characters |
| `Trials.TablesDisjoint` | shift_trainer.py:51-58 | no character is in both tables |
| `Trials.LetterDeterminesShift` | shift_trainer.py:51-71 | the displayed letter alone determines the expected shift, for every pick |
| `Session.PromptsAt` | shift_trainer.py:79-80 | one letter is printed per draw, and letter i is the letter of draw i |
| `Session.VerdictsAt` | shift_trainer.py:81-88 | one OK/False line is printed per completed trial, and line i is OK exactly when press i equals the shift of draw i |
| `Session.MatchesBounded` | shift_trainer.py:82-86 | `valid <= count`: the matches never exceed the completed trials |
| `Session.MatchingTrialsStep` | shift_trainer.py:84-86 | one more press adds its index to the matching trials exactly when it equals the expected shift |
| `Session.MatchesIsCount` | shift_trainer.py:82-86 | `valid` is the number of completed trials whose press equals the expected shift |
| `Session.MatchesAllIff` | shift_trainer.py:82-86 | `valid == count` exactly when every completed trial matched |
| `Session.FinalReport` | shift_trainer.py:91-94 | `None` exactly when `count == 0`, so no division happens then; otherwise reaction time times count is the elapsed time, percentage times count is `valid * 100`, and the percentage is in [0, 100] when `valid <= count` |
| `Session.TrainLoop` | shift_trainer.py:73-94 | the letters printed, the verdicts printed and the report returned on cancellation, with `count` the number of presses and `valid` the number of matches; the report is `None` exactly when nothing was pressed, and its percentage is in [0, 100] |
| `Session.ThreeTrialScenario` | shift_trainer.py:78-92 | the trials (left, left), (right, left), (left, left) give count 3, valid 2 and a percentage of 200/3 |
| `Session.ThreeTrialRun` | shift_trainer.py:78-92 | running the loop on those three trials prints the letters `^ ~ & *`, the verdicts OK, False, OK, and returns (elapsed/3, 200/3) |
| `Session.NoTrialRun` | shift_trainer.py:78-94 | the loop cancelled before any press prints one letter, no verdict, and returns `None` |
| `Reader.ScheduledBy` | shift_trainer.py:33-35 | a press schedules at most one callback, and it does so exactly when the slot is set and the key is a shift key; the callback resolves the slot's future with the pressed key itself |
| `Reader.ScheduledByAllTargetsSlot` | shift_trainer.py:33-35 | while the slot is unchanged, every scheduled callback targets that one future with a shift key; no slot or only non-shift keys schedule nothing; n shift presses schedule n callbacks, since the slot is not cleared |
| `Reader.HandlePresses` | shift_trainer.py:33-35 | a run of presses on the reader, with no `get_shift` in between, grows the loop's queue by exactly `ScheduledByAll` of the current slot, so the lemma above is a fact about `HandlePress` |
| `Reader.ShiftsReader.constructor` | shift_trainer.py:28-31 | a new reader has an empty slot and keeps the loop it is given |
| `Reader.ShiftsReader.HandlePress` | shift_trainer.py:33-35 | the loop's queue grows by exactly what `ScheduledBy` gives for the current slot and key; the slot is left as it was |
| `Reader.ShiftsReader.GetShift` | shift_trainer.py:37-40 | a fresh future replaces whatever the slot held |
| `Reader.DoublePress` | shift_trainer.py:33-40 | no slot: nothing is scheduled; after one `get_shift`, a non-shift key schedules nothing, and two shift presses schedule two `set_result` calls on the same future |

## Left out

- The pynput listener (`ShiftsReader.start`, `ShiftsReader.stop`, the `listener` field): a foreign library that runs a background thread.
- The asyncio side of the bridge: awaiting the future in `get_shift`, running the loop's callbacks (which includes the error a second `set_result` on a done future raises), `ensure_future`, task cancellation and the delivery of `CancelledError`. This is scheduler behaviour and concurrency. Cancellation appears only as the end of the press sequence.
- `ShiftTrainer.train`, `ShiftTrainer.stop`, `main` and the signal handlers: process and scheduler glue.
- `print`, `colorize` and the ANSI colour codes: the printed letters and OK/False lines are returned as data, and the final two-line summary is the returned report.
- `time.time()`: the elapsed time is a `real` parameter. The report uses exact real division, not floating-point rounding.
- `random.choice`: the draws are parameters, so nothing is claimed about uniformity or bias.

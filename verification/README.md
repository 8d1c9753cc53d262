# Slot machine game logic

A model of the game logic of the `SlotMachine` React component: three reels of
five faces, a balance of 1000 at mount, four wagers (10, 50, 100, 500), a spin
that debits the wager at once and resolves after the spin duration, a payout
rule (three equal faces pay ten times the wager, a matching adjacent pair pays
twice, anything else nothing), and audio cues gated by a mute flag.

The model lifts the logic out of the hooks, timers and audio:

- `Symbols` — the five faces, the `SYMBOLS` table, the three-face line `Reels`,
  and the final line as three draws of table indices.
- `Evaluator` — `checkWin`'s classification (`Classify`) and win amount
  (`Payout`), with an independent reading of the rule by counting matching
  adjacent pairs, and the worked payouts.
- `Game` — the immutable `GameState` and its transitions: `StartSpin` (the guard,
  the debit, the spin cue), `Resolve` (the timeout callback: final reels, payout,
  win or lose cue, end of spin), `SelectBet` and `ToggleMute`. Cues are recorded
  in an appended trace; `PlayCue` is the mute gate.
- `Session` — user clicks and the timer as events, `Step` and `Run`, and the
  properties that span several events: validity of every reachable state, the
  accounting equation of one spin, and the mute gate over a session.

The timeout callback closes over the values of the render in which `spin` was
called. The model therefore stores the wager and the mute flag in a `Capture`
when the spin is accepted, and `Resolve` uses those, not the current bet and
mute flag. The bet buttons stay active while a spin is in flight.

The model follows the code where it departs from the evident intent that no cue
plays while the mute flag is set. In the code,
muting during a spin does not silence that spin's win or lose cue, because
`checkWin` reads the mute flag captured when the spin started. `MuteDuringSpinStillSounds`
exhibits this, and `MutedSessionIsSilent` states the gate as the code has it:
no cue while muted, provided the spin in flight was started muted too.

## Model

| member | source | states |
|---|---|---|
| Symbols.Draw | src/components/SlotMachine.tsx:42 | the face a draw of index k selects is selected by no other index of `SYMBOLS` |
| Symbols.IndexOf | src/components/SlotMachine.tsx:4 | every face sits at a position of `SYMBOLS` from which a draw returns it |
| Symbols.IndexOfDraw | src/components/SlotMachine.tsx:4 | the table has no repeated face: the position of the drawn face is the drawn index |
| Symbols.FinalReelsInjective | src/components/SlotMachine.tsx:41-43 | two index triples that give the same final line are the same triple, so with `EveryOutcomeIsDrawable` each line has exactly one draw |
| Symbols.EveryOutcomeIsDrawable | src/components/SlotMachine.tsx:41-43 | every three-face line is produced by some three draws, so the outcome parameter covers all random results |
| Evaluator.Classify | src/components/SlotMachine.tsx:50-65 | jackpot exactly when all three faces are equal, pair exactly when one of the adjacent pairs 0-1, 1-2 matches but not both, miss exactly when neither adjacent pair matches |
| Evaluator.Payout | src/components/SlotMachine.tsx:51-62 | the win is zero exactly on a miss (for a positive wager) and never more than ten times the wager |
| Evaluator.PayoutByAdjacentMatches | src/components/SlotMachine.tsx:50-65 | the rule equals the pay table 0, 2, 10 indexed by the number of matching adjacent pairs |
| Evaluator.PayoutTriple | src/components/SlotMachine.tsx:51-52 | three equal faces pay ten times the wager |
| Evaluator.PayoutAdjacentPair | src/components/SlotMachine.tsx:56-57 | `[A,A,B]` and `[B,A,A]` with A different from B pay twice the wager |
| Evaluator.PayoutSplitPairLoses | src/components/SlotMachine.tsx:56-62 | `[A,B,A]` with A different from B pays nothing |
| Evaluator.PayoutAllDistinct | src/components/SlotMachine.tsx:61-62 | three pairwise different faces pay nothing |
| Evaluator.PayoutMirror | src/components/SlotMachine.tsx:56 | reversing the line does not change the payout |
| Game.Init | src/components/SlotMachine.tsx:9-14 | the mount state is valid, holds 1000, bets 10, shows three diamonds, is idle and unmuted, has won nothing and played no cue |
| Game.PlayCue | src/components/SlotMachine.tsx:20-25 | a cue is appended to the trace exactly when not muted, and the earlier trace is kept |
| Game.StartSpin | src/components/SlotMachine.tsx:27-32 | a request while spinning or with the balance below the bet changes nothing; an accepted one sets spinning, debits exactly the bet, captures bet and mute flag, plays the spin cue under the mute gate and changes nothing else; validity is kept |
| Game.Resolve | src/components/SlotMachine.tsx:39-65 | ends the spin, shows the given outcome, credits the payout on the captured wager and records it as the last win, plays, under the captured mute flag, the lose cue on a miss and the win cue otherwise (so the win cue exactly when the payout on a positive wager is positive), leaves bet and mute flag alone; validity is kept |
| Game.SelectBet | src/components/SlotMachine.tsx:102-105 | the bet becomes the clicked button's amount, one of 10, 50, 100, 500, and nothing else changes, spin in flight included |
| Game.ToggleMute | src/components/SlotMachine.tsx:77 | the mute flag flips and nothing else changes, the captured flag included |
| Session.Step | src/components/SlotMachine.tsx:20-48 | one event keeps validity, only appends to the cue trace, and appends only for an accepted unmuted spin request or a resolution whose captured flag is unmuted |
| Session.Run | src/components/SlotMachine.tsx:27-65 | any sequence of events keeps validity (non-negative balance, listed bet, spinning exactly when a capture is pending) and only appends cues |
| Session.ReachableIsValid | src/components/SlotMachine.tsx:9-14 | every state reachable from mount has a non-negative balance and a bet from the list |
| Session.InFlightIsStable | src/components/SlotMachine.tsx:27-32 | while a spin is in flight, clicks leave balance, reels, last win, capture and cue trace unchanged |
| Session.SpinAccounting | src/components/SlotMachine.tsx:27-58 | after a spin and any clicks before its timer, the spin is over, the reels show the outcome, and balance equals balance before minus wager at spin time plus its payout; both cues follow the mute flag at spin time |
| Session.MutedSessionIsSilent | src/components/SlotMachine.tsx:20-25 | with the mute flag set, not toggled, and any spin in flight started muted, no cue is played |
| Session.MuteDuringSpinStillSounds | src/components/SlotMachine.tsx:39-55 | muting after a jackpot spin has started still plays the win cue |
| Session.BetChangeDuringSpinPaysCapturedWager | src/components/SlotMachine.tsx:50-54 | raising the bet to 500 during a jackpot spin on 10 pays 100 and ends at 1090 |
| Session.SpinScenarios | src/components/SlotMachine.tsx:27-65 | from 1000: jackpot on 10 ends at 1090 winning 100, pair `[D,C,C]` on 50 ends at 1050 winning 100, a miss on 100 ends at 900 winning 0; a balance of 5 cannot spin on 10 |

## Left out

- Rendering, class names and icons: presentation only; the disabled state of the spin button mirrors `CanSpin`.
- The shuffle interval during a spin: it only changes the displayed reels until the final outcome overwrites them, so the model goes straight from `StartSpin` to `Resolve`.
- Wall-clock timing of the interval and the timeout: the spin is two discrete transitions, and the timer firing is an event that carries the outcome.
- `Math.random`: floating point and nondeterministic; the final outcome is a parameter of `Resolve` (`EveryOutcomeIsDrawable` shows every line is possible).
- Audio element playback and rewinding: foreign browser calls, reduced to appending a cue name to a trace.
- React state batching and stale reads inside one render (for example two spin clicks before a re-render): each transition is an atomic state update.
- JavaScript number precision: balances are unbounded integers; a balance beyond 2^53 is not modelled.

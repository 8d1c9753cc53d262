/** The state of one slot machine and its four transitions: starting a spin,
    resolving it with the final outcome, selecting a bet and toggling mute. */
module Game {
  import opened Symbols
  import opened Evaluator

  datatype Option<T> = None | Some(value: T)

  /** The named audio cues; playing one appends it to the cue trace. */
  datatype Cue = SpinCue | WinCue | LoseCue

  /** The wager and mute flag the resolution callback closes over when a spin is accepted. */
  datatype Capture = Capture(wager: nat, muted: bool)

  /** The component's state. `pending` holds the captured values of the spin in
      flight; `cues` is the trace of the cues played so far. */
  datatype GameState = GameState(
    reels: Reels,
    balance: int,
    spinning: bool,
    bet: nat,
    muted: bool,
    lastWin: int,
    pending: Option<Capture>,
    cues: seq<Cue>)

  /** The wagers offered by the bet buttons, smallest first. */
  const BetAmounts: seq<nat> := [10, 50, 100, 500]

  const InitialBalance: int := 1000

  /** The position of a bet button in `BetAmounts`. */
  type BetChoice = i: nat | i < |BetAmounts|

  /** What every reachable state satisfies. */
  predicate Valid(s: GameState)
  {
    && s.balance >= 0
    && s.bet in BetAmounts
    && s.lastWin >= 0
    && (s.spinning <==> s.pending.Some?)
    && (s.pending.Some? ==> s.pending.value.wager in BetAmounts)
  }

  /** The state at mount: three diamonds, 1000 in the balance, the smallest bet. */
  function Init(): (s: GameState)
    ensures Valid(s)
    ensures s.balance == 1000 && s.bet == 10 && s.lastWin == 0
    ensures !s.spinning && !s.muted && s.cues == []
    ensures forall i :: 0 <= i < |s.reels| ==> s.reels[i] == Diamond
  {
    GameState([Diamond, Diamond, Diamond], InitialBalance, false, BetAmounts[0], false, 0, None, [])
  }

  /** The mute gate: a cue is played, and so recorded, only when not muted. */
  function PlayCue(cues: seq<Cue>, muted: bool, cue: Cue): (r: seq<Cue>)
    ensures |r| == |cues| + (if muted then 0 else 1)
    ensures r[..|cues|] == cues
    ensures !muted ==> r[|cues|] == cue
  {
    if muted then cues else cues + [cue]
  }

  /** A spin is accepted when none is in flight and the balance covers the bet.
      The spin button is disabled exactly when this is false. */
  predicate CanSpin(s: GameState)
  {
    !s.spinning && s.balance >= s.bet
  }

  /** A spin request. A rejected request changes nothing; an accepted one marks
      the spin in flight, plays the spin cue, debits the bet before any outcome is
      known and captures the wager and mute flag for the resolution. */
  function StartSpin(s: GameState): (r: GameState)
    ensures !CanSpin(s) ==> r == s
    ensures CanSpin(s) ==>
      && r.spinning
      && r.balance == s.balance - s.bet
      && r.pending == Some(Capture(s.bet, s.muted))
      && r.cues == PlayCue(s.cues, s.muted, SpinCue)
      && r.(balance := s.balance, spinning := s.spinning, pending := s.pending, cues := s.cues) == s
    ensures Valid(s) ==> Valid(r)
  {
    if s.spinning || s.balance < s.bet then
      s
    else
      var inFlight := s.(spinning := true, pending := Some(Capture(s.bet, s.muted)));
      var cued := inFlight.(cues := PlayCue(inFlight.cues, s.muted, SpinCue));
      cued.(balance := cued.balance - s.bet)
  }

  /** The evaluator's effect on the state, for the captured wager and mute flag:
      a win credits the balance, records the amount and plays the win cue; a miss
      records zero and plays the lose cue. */
  function CheckWin(s: GameState, results: Reels, c: Capture): GameState
  {
    if Classify(results) == Miss then
      s.(lastWin := 0, cues := PlayCue(s.cues, c.muted, LoseCue))
    else
      var win := Payout(results, c.wager);
      s.(balance := s.balance + win, lastWin := win, cues := PlayCue(s.cues, c.muted, WinCue))
  }

  /** The resolution callback of the spin in flight: show the final outcome,
      evaluate it with the wager captured at spin time, end the spin. The current
      bet and mute flag play no part. */
  function Resolve(s: GameState, outcome: Reels): (r: GameState)
    requires s.pending.Some?
    ensures !r.spinning && r.pending == None
    ensures r.reels == outcome
    ensures r.balance == s.balance + Payout(outcome, s.pending.value.wager)
    ensures r.lastWin == Payout(outcome, s.pending.value.wager)
    ensures r.cues == PlayCue(s.cues, s.pending.value.muted,
                              if Classify(outcome) == Miss then LoseCue else WinCue)
    ensures s.pending.value.wager > 0 ==>
      r.cues == PlayCue(s.cues, s.pending.value.muted, if r.lastWin > 0 then WinCue else LoseCue)
    ensures r.bet == s.bet && r.muted == s.muted
    ensures Valid(s) ==> Valid(r)
  {
    var c := s.pending.value;
    var shown := s.(reels := outcome);
    var evaluated := CheckWin(shown, outcome, c);
    evaluated.(spinning := false, pending := None)
  }

  /** A bet button: sets the bet to its amount, also while a spin is in flight;
      nothing else changes, in particular not the captured wager. */
  function SelectBet(s: GameState, choice: BetChoice): (r: GameState)
    ensures r.bet in BetAmounts && r.bet == BetAmounts[choice]
    ensures r.(bet := s.bet) == s
  {
    s.(bet := BetAmounts[choice])
  }

  /** The mute button: flips the mute flag and nothing else, in particular not
      the flag captured by a spin in flight. */
  function ToggleMute(s: GameState): (r: GameState)
    ensures r.muted == !s.muted
    ensures r.(muted := s.muted) == s
  {
    s.(muted := !s.muted)
  }
}

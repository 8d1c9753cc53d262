/** A play session: the user's clicks and the spin timer as a sequence of events
    applied to the game state one at a time. */
module Session {
  import opened Symbols
  import opened Evaluator
  import opened Game

  /** The inputs the component reacts to. `TimerFired` is the end of the spin
      duration, carrying the randomly drawn final outcome. */
  datatype Event = SpinClicked | TimerFired(outcome: Reels) | BetClicked(choice: BetChoice) | MuteClicked

  /** One event. The timer only exists while a spin is in flight, so a
      `TimerFired` with nothing pending has no effect. */
  function Step(s: GameState, e: Event): (r: GameState)
    ensures Valid(s) ==> Valid(r)
    ensures |r.cues| >= |s.cues| && r.cues[..|s.cues|] == s.cues
    ensures |r.cues| > |s.cues| ==>
      || (e == SpinClicked && CanSpin(s) && !s.muted)
      || (e.TimerFired? && s.pending.Some? && !s.pending.value.muted)
  {
    match e
    case SpinClicked => StartSpin(s)
    case TimerFired(outcome) => if s.pending.Some? then Resolve(s, outcome) else s
    case BetClicked(choice) => SelectBet(s, choice)
    case MuteClicked => ToggleMute(s)
  }

  /** The state after a sequence of events. Validity holds throughout: the
      balance never goes negative and the bet is always one of `BetAmounts`.
      Cues are only ever appended. */
  function Run(s: GameState, events: seq<Event>): (r: GameState)
    ensures Valid(s) ==> Valid(r)
    ensures |r.cues| >= |s.cues| && r.cues[..|s.cues|] == s.cues
    decreases |events|
  {
    if events == [] then s else Run(Step(s, events[0]), events[1..])
  }

  /** Every state reachable from the initial one has a non-negative balance and a listed bet. */
  lemma ReachableIsValid(events: seq<Event>)
    ensures Valid(Run(Init(), events))
    ensures Run(Init(), events).balance >= 0 && Run(Init(), events).bet in BetAmounts
  {
  }

  /** Running two event sequences one after the other. */
  lemma {:induction false} RunAppend(s: GameState, a: seq<Event>, b: seq<Event>)
    ensures Run(s, a + b) == Run(Run(s, a), b)
    decreases |a|
  {
    if a == [] {
      assert a + b == b;
    } else {
      assert (a + b)[0] == a[0];
      assert (a + b)[1..] == a[1..] + b;
      RunAppend(Step(s, a[0]), a[1..], b);
    }
  }

  /** No timer fires in `events`. */
  predicate NoTimer(events: seq<Event>)
  {
    forall i :: 0 <= i < |events| ==> !events[i].TimerFired?
  }

  /** While a spin is in flight, clicks change neither the balance, the reels,
      the last win, the captured values nor the cue trace: further spin requests
      are rejected and bet and mute clicks touch only the bet and the mute flag. */
  lemma {:induction false} InFlightIsStable(s: GameState, events: seq<Event>)
    requires s.spinning && s.pending.Some?
    requires NoTimer(events)
    ensures var t := Run(s, events);
      && t.spinning && t.pending == s.pending
      && t.balance == s.balance && t.reels == s.reels
      && t.lastWin == s.lastWin && t.cues == s.cues
    decreases |events|
  {
    if events != [] {
      assert !events[0].TimerFired?;
      assert NoTimer(events[1..]) by {
        forall i | 0 <= i < |events[1..]| ensures !events[1..][i].TimerFired? {
          assert events[1..][i] == events[i + 1];
        }
      }
      InFlightIsStable(Step(s, events[0]), events[1..]);
    }
  }

  /** The accounting equation of one complete spin: whatever bet and mute clicks
      happen while it is in flight, the final balance is the balance before the
      spin, minus the wager at spin time, plus the payout on that same wager; the
      reels show the outcome; both cues follow the mute flag at spin time. */
  lemma SpinAccounting(s: GameState, during: seq<Event>, outcome: Reels)
    requires Valid(s) && CanSpin(s)
    requires NoTimer(during)
    ensures var r := Run(s, [SpinClicked] + during + [TimerFired(outcome)]);
      && !r.spinning && r.pending == None
      && r.reels == outcome
      && r.balance == s.balance - s.bet + Payout(outcome, s.bet)
      && r.lastWin == Payout(outcome, s.bet)
      && r.cues == PlayCue(PlayCue(s.cues, s.muted, SpinCue), s.muted,
                           if Payout(outcome, s.bet) > 0 then WinCue else LoseCue)
  {
    var started := StartSpin(s);
    assert Run(s, [SpinClicked]) == started by {
      assert [SpinClicked][1..] == [];
    }
    InFlightIsStable(started, during);
    var t := Run(started, during);
    assert Run(t, [TimerFired(outcome)]) == Resolve(t, outcome) by {
      assert [TimerFired(outcome)][1..] == [];
    }
    RunAppend(s, [SpinClicked], during);
    RunAppend(s, [SpinClicked] + during, [TimerFired(outcome)]);
  }

  /** The mute gate over a session: while the mute flag stays set and any spin in
      flight was started muted, no cue is played. */
  lemma {:induction false} MutedSessionIsSilent(s: GameState, events: seq<Event>)
    requires s.muted && (s.pending.Some? ==> s.pending.value.muted)
    requires forall i :: 0 <= i < |events| ==> events[i] != MuteClicked
    ensures Run(s, events).cues == s.cues
    decreases |events|
  {
    if events != [] {
      var next := Step(s, events[0]);
      assert next.cues == s.cues;
      assert forall i :: 0 <= i < |events[1..]| ==> events[1..][i] != MuteClicked by {
        forall i | 0 <= i < |events[1..]| ensures events[1..][i] != MuteClicked {
          assert events[1..][i] == events[i + 1];
        }
      }
      MutedSessionIsSilent(next, events[1..]);
    }
  }

  /** Muting during a spin does not silence its win or lose cue, since the
      resolution reads the mute flag captured when the spin started. */
  lemma MuteDuringSpinStillSounds()
    ensures var r := Run(Init(), [SpinClicked, MuteClicked, TimerFired([Diamond, Diamond, Diamond])]);
      r.muted && r.cues == [SpinCue, WinCue]
  {
  }

  /** Raising the bet during a spin does not change what that spin pays: the
      10 debited is the 10 the jackpot multiplies. */
  lemma BetChangeDuringSpinPaysCapturedWager()
    ensures var r := Run(Init(), [SpinClicked, BetClicked(3), TimerFired([Diamond, Diamond, Diamond])]);
      r.bet == 500 && r.balance == 1090 && r.lastWin == 100
  {
  }

  /** Worked spins from a balance of 1000: a jackpot on 10, a right-hand pair on
      50, a miss on 100; and a balance of 5 that cannot cover a bet of 10. */
  lemma SpinScenarios()
    ensures var s := Init().(bet := 10);
      var r := Resolve(StartSpin(s), [Diamond, Diamond, Diamond]);
      r.balance == 1090 && r.lastWin == 100
    ensures var s := Init().(bet := 50);
      var r := Resolve(StartSpin(s), [Diamond, Crown, Crown]);
      r.balance == 1050 && r.lastWin == 100
    ensures var s := Init().(bet := 100);
      var r := Resolve(StartSpin(s), [Diamond, Crown, Star]);
      r.balance == 900 && r.lastWin == 0
    ensures var s := Init().(balance := 5);
      StartSpin(s) == s && !StartSpin(s).spinning
  {
  }
}

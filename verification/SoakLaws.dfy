/** What each reading makes the soak controller do, with the codes and limits written out, and what a
    run's restarts and its end say about the readings. */
module SoakLaws {
  import opened Wrappers
  import opened SoakController

  // ----- one tick -----

  /** The three stall limits, in percent. */
  predicate OverLimit(psi: Psi) {
    psi.cpu > 20.0 || psi.mem > 10.0 || psi.io > 15.0
  }

  /** The tick gets to the engine check. */
  predicate Checks(s: State, t: Tick) {
    s.stopped.None? && !t.timeUp && !t.abortFile
  }

  /** The engine check leaves the controller running. */
  predicate Survives(s: State, t: Tick) {
    && Checks(s, t)
    && (match t.engine
        case Running => true
        case QueryFailed => true
        case Exited(code) =>
          || code == 10
          || (code == 11 && s.mode == RealWs)
          || (code == 13 && s.throttle != Throttle3))
  }

  /** The throttle after the engine check of a surviving tick. */
  function AfterEngine(s: State, t: Tick): Throttle {
    if t.engine != Exited(13) then s.throttle
    else
      match s.throttle
      case Normal => Throttle1
      case Throttle1 => Throttle2
      case Throttle2 => Throttle3
      case Throttle3 => Throttle3
      case OffLadder(_) => Normal
  }

  /** The tick ends the run, for this reason. */
  predicate Ends(actions: PsiActions, s: State, t: Tick, why: Stop) {
    match why
    case DurationReached => t.timeUp
    case AbortFileFound => !t.timeUp && t.abortFile
    case EngineComplete => Checks(s, t) && t.engine == Exited(0)
    case MockFailure => Checks(s, t) && t.engine == Exited(11) && s.mode != RealWs
    case OverloadAtTop => Checks(s, t) && t.engine == Exited(13) && s.throttle == Throttle3
    case UnhandledExit(code) => Checks(s, t) && t.engine == Exited(code) && code !in {0, 10, 11, 13}
    case SustainedPressure =>
      Survives(s, t) && actions == On && OverLimit(t.psi) && AfterEngine(s, t) == Throttle3 && s.consecutive >= 5
  }

  /** The tick restarts the engine, for this reason. */
  predicate Restarts(actions: PsiActions, s: State, t: Tick, why: Restart) {
    match why
    case SoakStart => false
    case AfterNetwork => Checks(s, t) && t.engine == Exited(10)
    case AfterProtocol => Checks(s, t) && t.engine == Exited(11) && s.mode == RealWs
    case ForOverload => Checks(s, t) && t.engine == Exited(13) && s.throttle != Throttle3
    case ForPressure => Survives(s, t) && actions == On && OverLimit(t.psi) && AfterEngine(s, t) != Throttle3
    case ForStall => Survives(s, t) && !Ends(actions, s, t, SustainedPressure) && t.stalled
  }

  lemma LimitsAre(psi: Psi)
    ensures Pressured(psi) <==> OverLimit(psi)
  {
  }

  /** The ladder: 1, 5, 10, 20, the top staying itself. */
  lemma LadderIs()
    ensures NextThrottle(Normal) == (Throttle1, 5) && NextThrottle(Throttle1) == (Throttle2, 10)
    ensures NextThrottle(Throttle2) == (Throttle3, 20) && NextThrottle(Throttle3) == (Throttle3, 20)
    ensures forall name :: NextThrottle(OffLadder(name)) == (Normal, 1)
  {
  }

  lemma EngineEnds(s: State, t: Tick)
    requires Checks(s, t)
    ensures var s' := EnginePhase(s, t.engine);
            && (s'.stopped == None <==> Survives(s, t))
            && (s'.stopped == Some(EngineComplete) <==> t.engine == Exited(0))
            && (s'.stopped == Some(MockFailure) <==> t.engine == Exited(11) && s.mode != RealWs)
            && (s'.stopped == Some(OverloadAtTop) <==> t.engine == Exited(13) && s.throttle == Throttle3)
            && (forall code :: s'.stopped == Some(UnhandledExit(code)) <==>
                  t.engine == Exited(code) && code !in {0, 10, 11, 13})
            && s'.stopped != Some(DurationReached) && s'.stopped != Some(AbortFileFound)
            && s'.stopped != Some(SustainedPressure)
            && (Survives(s, t) ==> s'.throttle == AfterEngine(s, t) && s'.consecutive == s.consecutive)
  {
    LadderIs();
  }

  lemma PressureEnds(s: State, actions: PsiActions, psi: Psi)
    requires s.stopped.None?
    ensures var s' := PressurePhase(s, actions, psi);
            s'.stopped == if actions == On && OverLimit(psi) && s.throttle == Throttle3 && s.consecutive >= 5
                          then Some(SustainedPressure) else None
  {
    LadderIs();
  }

  /** A running controller stops at a tick for a reason exactly when the tick gives that reason. */
  lemma {:induction false} TickEnds(actions: PsiActions, s: State, t: Tick, why: Stop)
    requires s.stopped.None?
    ensures Step(actions, s, t).stopped == Some(why) <==> Ends(actions, s, t, why)
  {
    if Checks(s, t) {
      EngineEnds(s, t);
      var s1 := EnginePhase(s, t.engine);
      if s1.stopped.None? {
        PressureEnds(s1, actions, t.psi);
      }
    }
  }

  /** The restarts one tick adds, in order. */
  ghost predicate Adds(s: State, s': State, whys: seq<Restart>) {
    s'.restarts == s.restarts + whys
  }

  lemma EngineAdds(s: State, t: Tick)
    requires Checks(s, t)
    ensures var s' := EnginePhase(s, t.engine);
            Adds(s, s', if t.engine == Exited(10) then [AfterNetwork]
                        else if t.engine == Exited(11) && s.mode == RealWs then [AfterProtocol]
                        else if t.engine == Exited(13) && s.throttle != Throttle3 then [ForOverload] else [])
  {
    LadderIs();
    assert s.restarts + [] == s.restarts;
  }

  lemma PressureAdds(s: State, actions: PsiActions, psi: Psi)
    ensures Adds(s, PressurePhase(s, actions, psi),
                 if actions == On && OverLimit(psi) && s.throttle != Throttle3 then [ForPressure] else [])
  {
    LadderIs();
    assert s.restarts + [] == s.restarts;
  }

  function CountOf(restarts: seq<Restart>, why: Restart): nat {
    if restarts == [] then 0
    else CountOf(restarts[..|restarts| - 1], why) + (if restarts[|restarts| - 1] == why then 1 else 0)
  }

  lemma CountMore(restarts: seq<Restart>, more: seq<Restart>, why: Restart)
    requires |more| <= 1
    ensures CountOf(restarts + more, why) == CountOf(restarts, why) + (if more == [why] then 1 else 0)
  {
    if more == [] {
      assert restarts + more == restarts;
    } else {
      assert (restarts + more)[..|restarts|] == restarts;
    }
  }

  function One(b: bool): nat {
    if b then 1 else 0
  }

  lemma EngineRestarts(actions: PsiActions, s: State, t: Tick, why: Restart)
    requires Checks(s, t)
    ensures CountOf(EnginePhase(s, t.engine).restarts, why)
            == CountOf(s.restarts, why)
               + One(why in {AfterNetwork, AfterProtocol, ForOverload} && Restarts(actions, s, t, why))
  {
    EngineAdds(s, t);
    var added := if t.engine == Exited(10) then [AfterNetwork]
                 else if t.engine == Exited(11) && s.mode == RealWs then [AfterProtocol]
                 else if t.engine == Exited(13) && s.throttle != Throttle3 then [ForOverload] else [];
    CountMore(s.restarts, added, why);
  }

  lemma PressureRestarts(s: State, actions: PsiActions, psi: Psi, why: Restart)
    ensures CountOf(PressurePhase(s, actions, psi).restarts, why)
            == CountOf(s.restarts, why)
               + One(why == ForPressure && actions == On && OverLimit(psi) && s.throttle != Throttle3)
  {
    PressureAdds(s, actions, psi);
    CountMore(s.restarts, if actions == On && OverLimit(psi) && s.throttle != Throttle3 then [ForPressure] else [], why);
  }

  /** The last phase of a tick that got through the other two. */
  lemma StallRestarts(actions: PsiActions, s: State, t: Tick, s2: State, why: Restart)
    requires Survives(s, t) && s2 == PressurePhase(EnginePhase(s, t.engine), actions, t.psi)
    ensures CountOf(Step(actions, s, t).restarts, why)
            == CountOf(s2.restarts, why) + One(why == ForStall && Restarts(actions, s, t, ForStall))
  {
    EngineEnds(s, t);
    PressureEnds(EnginePhase(s, t.engine), actions, t.psi);
    CountMore(s2.restarts, [ForStall], why);
  }

  lemma SurvivorCounts(actions: PsiActions, s: State, t: Tick, why: Restart)
    requires Survives(s, t)
    ensures CountOf(Step(actions, s, t).restarts, why)
            == CountOf(s.restarts, why) + One(Restarts(actions, s, t, why))
  {
    var s1 := EnginePhase(s, t.engine);
    EngineEnds(s, t);
    EngineRestarts(actions, s, t, why);
    PressureRestarts(s1, actions, t.psi, why);
    StallRestarts(actions, s, t, PressurePhase(s1, actions, t.psi), why);
  }

  /** A tick restarts the engine once for each reason it gives. */
  lemma {:induction false} TickRestarts(actions: PsiActions, s: State, t: Tick, why: Restart)
    requires s.stopped.None?
    ensures CountOf(Step(actions, s, t).restarts, why)
            == CountOf(s.restarts, why) + One(Restarts(actions, s, t, why))
  {
    if Survives(s, t) {
      SurvivorCounts(actions, s, t, why);
    } else if Checks(s, t) {
      EngineEnds(s, t);
      EngineAdds(s, t);
      assert s.restarts + [] == s.restarts;
    }
  }

  // ----- whole runs -----

  /** The reason is given at tick `i`, while the controller is running. */
  ghost predicate EndsAt(actions: PsiActions, mode: Mode, ticks: seq<Tick>, i: nat, why: Stop) {
    && i < |ticks| && Run(actions, mode, ticks[..i]).stopped.None?
    && Ends(actions, Run(actions, mode, ticks[..i]), ticks[i], why)
  }

  /** A run has stopped for a reason exactly when some tick it reached gave that reason: in particular
      it is complete exactly when the engine was seen to have exited with 0. */
  lemma {:induction false} RunEnds(actions: PsiActions, mode: Mode, ticks: seq<Tick>, why: Stop)
    ensures Run(actions, mode, ticks).stopped == Some(why) <==> exists i: nat :: EndsAt(actions, mode, ticks, i, why)
  {
    if ticks != [] {
      var n := |ticks| - 1;
      var past, s := ticks[..n], Run(actions, mode, ticks[..n]);
      RunEnds(actions, mode, past, why);
      forall i: nat | i < n ensures EndsAt(actions, mode, past, i, why) == EndsAt(actions, mode, ticks, i, why) {
        assert past[..i] == ticks[..i];
      }
      if s.stopped.None? {
        TickEnds(actions, s, ticks[n], why);
        assert EndsAt(actions, mode, ticks, n, why) <==> Ends(actions, s, ticks[n], why);
      }
      assert (exists i: nat :: EndsAt(actions, mode, ticks, i, why))
             <==> (exists i: nat :: EndsAt(actions, mode, past, i, why)) || EndsAt(actions, mode, ticks, n, why) by {
        LastOrEarlier(actions, mode, ticks, why);
      }
    }
  }

  lemma LastOrEarlier(actions: PsiActions, mode: Mode, ticks: seq<Tick>, why: Stop)
    requires ticks != []
    ensures var n := |ticks| - 1;
            (exists i: nat :: EndsAt(actions, mode, ticks, i, why))
            <==> (exists i: nat :: EndsAt(actions, mode, ticks[..n], i, why)) || EndsAt(actions, mode, ticks, n, why)
  {
    var n := |ticks| - 1;
    forall i: nat | i < n ensures EndsAt(actions, mode, ticks[..n], i, why) == EndsAt(actions, mode, ticks, i, why) {
      assert ticks[..n][..i] == ticks[..i];
    }
  }

  /** How many ticks reached while running gave the reason. */
  function TicksFor(actions: PsiActions, mode: Mode, ticks: seq<Tick>, why: Restart): nat {
    if ticks == [] then 0
    else
      var n := |ticks| - 1;
      var s := Run(actions, mode, ticks[..n]);
      TicksFor(actions, mode, ticks[..n], why)
      + (if s.stopped.None? && Restarts(actions, s, ticks[n], why) then 1 else 0)
  }

  /** Besides the first start, the restarts of a run are exactly those its ticks gave a reason for: after
      a network exit for each 10 it saw, after an overload for each 13 below the top, and so on. */
  lemma {:induction false} RunRestarts(actions: PsiActions, mode: Mode, ticks: seq<Tick>, why: Restart)
    ensures CountOf(Run(actions, mode, ticks).restarts, why)
            == TicksFor(actions, mode, ticks, why) + (if why == SoakStart then 1 else 0)
  {
    if ticks == [] {
      CountMore([], [SoakStart], why);
      assert [] + [SoakStart] == [SoakStart];
    } else {
      var n := |ticks| - 1;
      var s := Run(actions, mode, ticks[..n]);
      RunRestarts(actions, mode, ticks[..n], why);
      if s.stopped.None? {
        TickRestarts(actions, s, ticks[n], why);
      }
    }
  }

  /** The written sample rate of a run is 1, 5, 10 or 20, by the number of throttle-ups. */
  lemma {:induction false} RateIs(actions: PsiActions, mode: Mode, ticks: seq<Tick>)
    ensures var s := Run(actions, mode, ticks);
            && CountOf(s.restarts, ForOverload) + CountOf(s.restarts, ForPressure) <= 3
            && s.writtenRate == [1, 5, 10, 20][CountOf(s.restarts, ForOverload) + CountOf(s.restarts, ForPressure)]
  {
    var s := Run(actions, mode, ticks);
    RunLaddered(actions, mode, ticks);
    CountsAgree(s.restarts);
  }

  lemma {:induction false} CountsAgree(restarts: seq<Restart>)
    ensures ThrottleUps(restarts) == CountOf(restarts, ForOverload) + CountOf(restarts, ForPressure)
  {
    if restarts != [] {
      CountsAgree(restarts[..|restarts| - 1]);
    }
  }
}

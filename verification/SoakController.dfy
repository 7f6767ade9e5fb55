/** The soak controller (scripts/soak_2h.py): throttle ladder, engine exits, pressure abort.

    Each analysis tick reads the clock, the abort file, the engine's status, the pressure figures
    and the stall detector; their readings are the tick's inputs. */
module SoakController {
  import opened Wrappers

  /** A state name; names off the ladder are possible in the source and have a branch of their own. */
  datatype Throttle = Normal | Throttle1 | Throttle2 | Throttle3 | OffLadder(name: string)

  const LADDER: seq<(Throttle, nat)> := [(Normal, 1), (Throttle1, 5), (Throttle2, 10), (Throttle3, 20)]

  const CPU_LIMIT: real := 20.0
  const MEM_LIMIT: real := 10.0
  const IO_LIMIT: real := 15.0
  const SUSTAINED: nat := 5

  datatype Mode = RealWs | MockWs | OtherMode(name: string)

  datatype PsiActions = On | LogOnly | Off

  /** What the service query returned; a failed query is skipped with a warning. */
  datatype Engine = Running | QueryFailed | Exited(code: int)

  datatype Psi = Psi(cpu: real, mem: real, io: real)

  datatype Tick = Tick(timeUp: bool, abortFile: bool, engine: Engine, psi: Psi, stalled: bool)

  datatype Restart = SoakStart | AfterNetwork | AfterProtocol | ForOverload | ForPressure | ForStall

  datatype Stop =
    | DurationReached | AbortFileFound | EngineComplete | MockFailure
    | OverloadAtTop | UnhandledExit(code: int) | SustainedPressure

  datatype State = State(
    throttle: Throttle, writtenRate: nat, consecutive: nat, mode: Mode,
    restarts: seq<Restart>, stopped: Option<Stop>)

  function Rung(t: Throttle): Option<nat> {
    match t
    case Normal => Some(0)
    case Throttle1 => Some(1)
    case Throttle2 => Some(2)
    case Throttle3 => Some(3)
    case OffLadder(_) => None
  }

  /** The sample rate of a state, 1 off the ladder. */
  function RateOf(t: Throttle): nat {
    match Rung(t)
    case None => 1
    case Some(i) => LADDER[i].1
  }

  /** One rung up, staying at the top; off the ladder, back to NORMAL. */
  function NextThrottle(t: Throttle): (Throttle, nat) {
    match Rung(t)
    case None => (Normal, 1)
    case Some(i) => if i + 1 < |LADDER| then LADDER[i + 1] else LADDER[|LADDER| - 1]
  }

  predicate Pressured(psi: Psi) {
    psi.cpu > CPU_LIMIT || psi.mem > MEM_LIMIT || psi.io > IO_LIMIT
  }

  function Start(mode: Mode): State {
    State(Normal, 1, 0, mode, [SoakStart], None)
  }

  function StopWith(s: State, why: Stop): State {
    s.(stopped := Some(why))
  }

  function RestartFor(s: State, why: Restart): State {
    s.(restarts := s.restarts + [why])
  }

  function ThrottleUp(s: State, why: Restart): State {
    var (next, rate) := NextThrottle(s.throttle);
    RestartFor(s.(throttle := next, writtenRate := rate), why)
  }

  /** Reaction to the engine's exit code. */
  function EnginePhase(s: State, engine: Engine): State {
    match engine
    case Running => s
    case QueryFailed => s
    case Exited(code) =>
      if code == 0 then StopWith(s, EngineComplete)
      else if code == 10 then RestartFor(s, AfterNetwork)
      else if code == 11 then
        if s.mode == RealWs then RestartFor(s.(mode := MockWs), AfterProtocol) else StopWith(s, MockFailure)
      else if code == 13 then
        if NextThrottle(s.throttle).0 == s.throttle then StopWith(s, OverloadAtTop) else ThrottleUp(s, ForOverload)
      else StopWith(s, UnhandledExit(code))
  }

  function PressurePhase(s: State, actions: PsiActions, psi: Psi): State {
    if actions == Off then s
    else if !Pressured(psi) || actions == LogOnly then s.(consecutive := 0)
    else
      var s' := s.(consecutive := s.consecutive + 1);
      if NextThrottle(s.throttle).0 != s.throttle then ThrottleUp(s', ForPressure)
      else if s'.consecutive > SUSTAINED then StopWith(s', SustainedPressure)
      else s'
  }

  function Step(actions: PsiActions, s: State, t: Tick): State {
    if s.stopped.Some? then s
    else if t.timeUp then StopWith(s, DurationReached)
    else if t.abortFile then StopWith(s, AbortFileFound)
    else
      var s1 := EnginePhase(s, t.engine);
      if s1.stopped.Some? then s1
      else
        var s2 := PressurePhase(s1, actions, t.psi);
        if s2.stopped.Some? then s2
        else if t.stalled then RestartFor(s2, ForStall) else s2
  }

  function Run(actions: PsiActions, mode: Mode, ticks: seq<Tick>): State {
    if ticks == [] then Start(mode)
    else Step(actions, Run(actions, mode, ticks[..|ticks| - 1]), ticks[|ticks| - 1])
  }

  /** What the controller makes of an exit code: 0 completes, 10 restarts, 11 falls back from the real
      feed or fails, 13 throttles up or fails at the top, anything else aborts. */
  ghost predicate ReactsTo(code: int, s: State, t: State) {
    if code == 0 then t == s.(stopped := Some(EngineComplete))
    else if code == 10 then t == s.(restarts := s.restarts + [AfterNetwork])
    else if code == 11 && s.mode == RealWs then t == s.(mode := MockWs, restarts := s.restarts + [AfterProtocol])
    else if code == 11 then t == s.(stopped := Some(MockFailure))
    else if code == 13 then
      match s.throttle
      case Normal => t == s.(throttle := Throttle1, writtenRate := 5, restarts := s.restarts + [ForOverload])
      case Throttle1 => t == s.(throttle := Throttle2, writtenRate := 10, restarts := s.restarts + [ForOverload])
      case Throttle2 => t == s.(throttle := Throttle3, writtenRate := 20, restarts := s.restarts + [ForOverload])
      case Throttle3 => t == s.(stopped := Some(OverloadAtTop))
      case OffLadder(_) => t == s.(throttle := Normal, writtenRate := 1, restarts := s.restarts + [ForOverload])
    else t == s.(stopped := Some(UnhandledExit(code)))
  }

  lemma ExitReactions(s: State, code: int)
    ensures ReactsTo(code, s, EnginePhase(s, Exited(code)))
  {
  }

  class Controller {
    const psiActions: PsiActions
    var currentState: Throttle
    var writtenRate: nat
    var consecutivePressure: nat
    var ingestMode: Mode
    var restarts: seq<Restart>
    var stopped: Option<Stop>

    function View(): State
      reads this
    {
      State(currentState, writtenRate, consecutivePressure, ingestMode, restarts, stopped)
    }

    constructor (psiActions: PsiActions, mode: Mode)
      ensures View() == Start(mode) && this.psiActions == psiActions
    {
      this.psiActions := psiActions;
      currentState, writtenRate, consecutivePressure, ingestMode := Normal, 1, 0, mode;
      restarts, stopped := [SoakStart], None;
    }

    method HandleExit(code: int)
      modifies this
      ensures View() == EnginePhase(old(View()), Exited(code))
      ensures ReactsTo(code, old(View()), View())
    {
      ExitReactions(View(), code);
      if code == 0 {
        stopped := Some(EngineComplete);
      } else if code == 10 {
        restarts := restarts + [AfterNetwork];
      } else if code == 11 {
        if ingestMode == RealWs {
          ingestMode := MockWs;
          restarts := restarts + [AfterProtocol];
        } else {
          stopped := Some(MockFailure);
        }
      } else if code == 13 {
        var (next, rate) := NextThrottle(currentState);
        if next == currentState {
          stopped := Some(OverloadAtTop);
        } else {
          currentState, writtenRate := next, rate;
          restarts := restarts + [ForOverload];
        }
      } else {
        stopped := Some(UnhandledExit(code));
      }
    }

    method HandlePressure(psi: Psi)
      modifies this
      ensures View() == PressurePhase(old(View()), psiActions, psi)
    {
      if psiActions == Off {
        return;
      }
      if !Pressured(psi) || psiActions == LogOnly {
        consecutivePressure := 0;
        return;
      }
      consecutivePressure := consecutivePressure + 1;
      var (next, rate) := NextThrottle(currentState);
      if next != currentState {
        currentState, writtenRate := next, rate;
        restarts := restarts + [ForPressure];
      } else if consecutivePressure > SUSTAINED {
        stopped := Some(SustainedPressure);
      }
    }

    /** One analysis tick. */
    method Analyse(t: Tick)
      requires stopped.None?
      modifies this
      ensures View() == Step(psiActions, old(View()), t)
    {
      if t.timeUp {
        stopped := Some(DurationReached);
        return;
      }
      if t.abortFile {
        stopped := Some(AbortFileFound);
        return;
      }
      if t.engine.Exited? {
        HandleExit(t.engine.code);
        if stopped.Some? {
          return;
        }
      }
      HandlePressure(t.psi);
      if stopped.Some? {
        return;
      }
      if t.stalled {
        restarts := restarts + [ForStall];
      }
    }

    /** The analysis loop, until it stops or the readings end. */
    method RunLoop(ticks: seq<Tick>)
      requires View() == Start(ingestMode)
      modifies this
      ensures View() == Run(psiActions, old(ingestMode), ticks)
    {
      ghost var mode := ingestMode;
      var i := 0;
      while i < |ticks| && stopped.None?
        invariant i <= |ticks|
        invariant View() == Run(psiActions, mode, ticks[..i])
      {
        assert ticks[..i + 1][..i] == ticks[..i];
        Analyse(ticks[i]);
        i := i + 1;
      }
      StoppedStays(psiActions, mode, ticks, i);
    }
  }

  /** A stopped controller ignores all further readings. */
  lemma {:induction false} StoppedStays(actions: PsiActions, mode: Mode, ticks: seq<Tick>, n: nat)
    requires n <= |ticks| && (n < |ticks| ==> Run(actions, mode, ticks[..n]).stopped.Some?)
    ensures Run(actions, mode, ticks) == Run(actions, mode, ticks[..n])
    decreases |ticks|
  {
    if n == |ticks| {
      assert ticks[..n] == ticks;
    } else {
      assert ticks[..|ticks| - 1][..n] == ticks[..n];
      StoppedStays(actions, mode, ticks[..|ticks| - 1], n);
    }
  }

  // ----- the ladder -----

  /** How often the controller throttled up. */
  function ThrottleUps(restarts: seq<Restart>): nat {
    if restarts == [] then 0
    else
      var last := restarts[|restarts| - 1];
      ThrottleUps(restarts[..|restarts| - 1]) + (if last == ForOverload || last == ForPressure then 1 else 0)
  }

  /** How often it fell back from the real feed to the mock one. */
  function Fallbacks(restarts: seq<Restart>): nat {
    if restarts == [] then 0
    else
      Fallbacks(restarts[..|restarts| - 1]) + (if restarts[|restarts| - 1] == AfterProtocol then 1 else 0)
  }

  /** On the ladder, one rung per throttle-up, and the written rate is the rung's. */
  ghost predicate Laddered(s: State, mode: Mode) {
    && Rung(s.throttle) == Some(ThrottleUps(s.restarts))
    && s.writtenRate == RateOf(s.throttle)
    && Fallbacks(s.restarts) == (if mode == RealWs && s.mode == MockWs then 1 else 0)
    && (s.mode == mode || (mode == RealWs && s.mode == MockWs))
  }

  lemma RestartCounts(restarts: seq<Restart>, why: Restart)
    ensures ThrottleUps(restarts + [why]) == ThrottleUps(restarts) + (if why == ForOverload || why == ForPressure then 1 else 0)
    ensures Fallbacks(restarts + [why]) == Fallbacks(restarts) + (if why == AfterProtocol then 1 else 0)
  {
    assert (restarts + [why])[..|restarts|] == restarts;
  }

  lemma NextRung(t: Throttle)
    requires Rung(t).Some?
    ensures Rung(NextThrottle(t).0) == Some(if Rung(t).value < 3 then Rung(t).value + 1 else 3)
    ensures NextThrottle(t).1 == RateOf(NextThrottle(t).0)
    ensures NextThrottle(t).0 == t <==> Rung(t).value == 3
  {
  }

  lemma ThrottleUpLaddered(s: State, mode: Mode, why: Restart)
    requires Laddered(s, mode) && NextThrottle(s.throttle).0 != s.throttle
    requires why == ForOverload || why == ForPressure
    ensures Laddered(ThrottleUp(s, why), mode)
    ensures Rung(ThrottleUp(s, why).throttle).value == Rung(s.throttle).value + 1
  {
    NextRung(s.throttle);
    RestartCounts(s.restarts, why);
  }

  lemma PlainRestartLaddered(s: State, mode: Mode, why: Restart)
    requires Laddered(s, mode) && (why == AfterNetwork || why == ForStall)
    ensures Laddered(RestartFor(s, why), mode)
  {
    RestartCounts(s.restarts, why);
  }

  lemma FallbackLaddered(s: State, mode: Mode)
    requires Laddered(s, mode) && s.mode == RealWs
    ensures Laddered(RestartFor(s.(mode := MockWs), AfterProtocol), mode)
  {
    RestartCounts(s.restarts, AfterProtocol);
  }

  lemma EngineLaddered(s: State, mode: Mode, engine: Engine)
    requires Laddered(s, mode)
    ensures Laddered(EnginePhase(s, engine), mode)
    ensures Rung(s.throttle).value <= Rung(EnginePhase(s, engine).throttle).value
  {
    if engine == Exited(10) {
      PlainRestartLaddered(s, mode, AfterNetwork);
    } else if engine == Exited(11) && s.mode == RealWs {
      FallbackLaddered(s, mode);
    } else if engine == Exited(13) && NextThrottle(s.throttle).0 != s.throttle {
      ThrottleUpLaddered(s, mode, ForOverload);
    }
  }

  lemma PressureLaddered(s: State, mode: Mode, actions: PsiActions, psi: Psi)
    requires Laddered(s, mode)
    ensures Laddered(PressurePhase(s, actions, psi), mode)
    ensures Rung(s.throttle).value <= Rung(PressurePhase(s, actions, psi).throttle).value
  {
    if actions == On && Pressured(psi) && NextThrottle(s.throttle).0 != s.throttle {
      ThrottleUpLaddered(s.(consecutive := s.consecutive + 1), mode, ForPressure);
    }
  }

  lemma StepLaddered(actions: PsiActions, s: State, mode: Mode, t: Tick)
    requires Laddered(s, mode)
    ensures Laddered(Step(actions, s, t), mode)
    ensures Rung(s.throttle).value <= Rung(Step(actions, s, t).throttle).value
  {
    EngineLaddered(s, mode, t.engine);
    var s1 := EnginePhase(s, t.engine);
    PressureLaddered(s1, mode, actions, t.psi);
    PlainRestartLaddered(PressurePhase(s1, actions, t.psi), mode, ForStall);
  }

  lemma {:induction false} RunLaddered(actions: PsiActions, mode: Mode, ticks: seq<Tick>)
    ensures Laddered(Run(actions, mode, ticks), mode)
  {
    if ticks == [] {
      RestartCounts([], SoakStart);
      assert [] + [SoakStart] == [SoakStart];
    } else {
      RunLaddered(actions, mode, ticks[..|ticks| - 1]);
      StepLaddered(actions, Run(actions, mode, ticks[..|ticks| - 1]), mode, ticks[|ticks| - 1]);
    }
  }

  /** Over a whole run: the level equals the number of throttle-ups, of which there are at most
      three from pressure and overload together; it never falls; the written sample rate is always
      the level's; the feed falls back to the mock at most once, and only from the real one. */
  lemma {:induction false} LadderLaw(actions: PsiActions, mode: Mode, ticks: seq<Tick>, n: nat)
    requires n <= |ticks|
    ensures var earlier, s := Run(actions, mode, ticks[..n]), Run(actions, mode, ticks);
            && Rung(s.throttle) == Some(ThrottleUps(s.restarts)) && ThrottleUps(s.restarts) <= 3
            && ThrottleUps(earlier.restarts) <= ThrottleUps(s.restarts)
            && s.writtenRate == LADDER[ThrottleUps(s.restarts)].1
            && Fallbacks(s.restarts) <= (if mode == RealWs then 1 else 0)
    decreases |ticks| - n
  {
    RunLaddered(actions, mode, ticks);
    RunLaddered(actions, mode, ticks[..n]);
    if n == |ticks| {
      assert ticks[..n] == ticks;
    } else {
      assert ticks[..n + 1][..n] == ticks[..n];
      StepLaddered(actions, Run(actions, mode, ticks[..n]), mode, ticks[n]);
      LadderLaw(actions, mode, ticks, n + 1);
      RunLaddered(actions, mode, ticks[..n + 1]);
    }
  }

  // ----- the pressure abort -----

  /** Length of the unbroken run of pressured ticks at the end. */
  function PressureStreak(ticks: seq<Tick>): (n: nat)
    ensures n <= |ticks|
    ensures forall i :: |ticks| - n <= i < |ticks| ==> Pressured(ticks[i].psi)
    ensures n < |ticks| ==> !Pressured(ticks[|ticks| - n - 1].psi)
  {
    if ticks == [] || !Pressured(ticks[|ticks| - 1].psi) then 0 else 1 + PressureStreak(ticks[..|ticks| - 1])
  }

  /** The tick gets as far as the pressure check. */
  predicate ReachesPressureCheck(s: State, t: Tick) {
    s.stopped.None? && !t.timeUp && !t.abortFile && EnginePhase(s, t.engine).stopped.None?
  }

  /** With pressure actions on, a controller that is still running has counted the streak, which
      is short, and is at least as many rungs up. */
  ghost predicate Counting(s: State, ticks: seq<Tick>) {
    s.stopped.None? ==>
      && s.consecutive == PressureStreak(ticks) <= SUSTAINED
      && Rung(s.throttle).Some?
      && (Rung(s.throttle).value == 3 || Rung(s.throttle).value >= s.consecutive)
  }

  /** The pressure check on its own, for a controller that has just survived the engine check. */
  lemma PressureCounts(s: State, streak: nat, psi: Psi)
    requires s.stopped.None? && s.consecutive == streak <= SUSTAINED && Rung(s.throttle).Some?
    requires Rung(s.throttle).value == 3 || Rung(s.throttle).value >= streak
    ensures var s', streak' := PressurePhase(s, On, psi), if Pressured(psi) then streak + 1 else 0;
            && (s'.stopped == Some(SustainedPressure) <==> streak' == SUSTAINED + 1)
            && (s'.stopped.Some? ==> s'.stopped == Some(SustainedPressure) && s'.throttle == Throttle3)
            && (s'.stopped.None? ==>
                  && s'.consecutive == streak' <= SUSTAINED && Rung(s'.throttle).Some?
                  && (Rung(s'.throttle).value == 3 || Rung(s'.throttle).value >= streak'))
  {
    NextRung(s.throttle);
  }

  lemma EngineCounts(s: State, engine: Engine)
    requires Rung(s.throttle).Some?
    ensures var s' := EnginePhase(s, engine);
            && s'.consecutive == s.consecutive
            && (s.stopped.None? ==> s'.stopped != Some(SustainedPressure))
            && Rung(s'.throttle).Some? && Rung(s'.throttle).value >= Rung(s.throttle).value
  {
    NextRung(s.throttle);
  }

  /** The verdict of the newest tick, for a controller that has counted all the earlier ones. */
  ghost predicate AbortsOnSixth(s: State, ticks: seq<Tick>)
    requires ticks != []
  {
    var t := ticks[|ticks| - 1];
    && (Step(On, s, t).stopped == Some(SustainedPressure) <==> ReachesPressureCheck(s, t) && PressureStreak(ticks) == 6)
    && (Step(On, s, t).stopped == Some(SustainedPressure) ==> Step(On, s, t).throttle == Throttle3)
  }

  lemma StepCounts(s: State, mode: Mode, ticks: seq<Tick>)
    requires ticks != [] && Counting(s, ticks[..|ticks| - 1]) && Laddered(s, mode)
    ensures Counting(Step(On, s, ticks[|ticks| - 1]), ticks)
    ensures s.stopped.None? ==> AbortsOnSixth(s, ticks)
  {
    var past, t := ticks[..|ticks| - 1], ticks[|ticks| - 1];
    if s.stopped.None? {
      EngineLaddered(s, mode, t.engine);
      EngineCounts(s, t.engine);
      if ReachesPressureCheck(s, t) {
        PressureCounts(EnginePhase(s, t.engine), PressureStreak(past), t.psi);
      }
    }
  }

  lemma {:induction false} RunCounts(mode: Mode, ticks: seq<Tick>)
    ensures Counting(Run(On, mode, ticks), ticks)
    ensures ticks != [] && Run(On, mode, ticks[..|ticks| - 1]).stopped.None? ==>
              AbortsOnSixth(Run(On, mode, ticks[..|ticks| - 1]), ticks)
  {
    if ticks != [] {
      var past := ticks[..|ticks| - 1];
      RunCounts(mode, past);
      RunLaddered(On, mode, past);
      StepCounts(Run(On, mode, past), mode, ticks);
    }
  }

  /** A running controller aborts for pressure at a tick exactly when the tick gets to the pressure
      check and completes six pressured ticks in a row; the ladder is then at its top. */
  lemma {:induction false} PressureAbortLaw(mode: Mode, ticks: seq<Tick>)
    requires ticks != [] && Run(On, mode, ticks[..|ticks| - 1]).stopped.None?
    ensures Run(On, mode, ticks).stopped == Some(SustainedPressure) <==>
            ReachesPressureCheck(Run(On, mode, ticks[..|ticks| - 1]), ticks[|ticks| - 1]) && PressureStreak(ticks) == 6
    ensures Run(On, mode, ticks).stopped == Some(SustainedPressure) ==> Run(On, mode, ticks).throttle == Throttle3
  {
    RunCounts(mode, ticks);
  }

  lemma StepOnlyLogs(actions: PsiActions, s: State, t: Tick)
    requires actions != On && s.stopped != Some(SustainedPressure) && ForPressure !in s.restarts
    ensures Step(actions, s, t).stopped != Some(SustainedPressure)
    ensures ForPressure !in Step(actions, s, t).restarts
  {
    var s1 := EnginePhase(s, t.engine);
    assert ForPressure !in s1.restarts;
  }

  /** Without pressure actions, pressure never throttles and never stops the run. */
  lemma {:induction false} PressureOnlyLogged(actions: PsiActions, mode: Mode, ticks: seq<Tick>)
    requires actions != On
    ensures Run(actions, mode, ticks).stopped != Some(SustainedPressure)
    ensures ForPressure !in Run(actions, mode, ticks).restarts
  {
    if ticks != [] {
      var n := |ticks| - 1;
      PressureOnlyLogged(actions, mode, ticks[..n]);
      StepOnlyLogs(actions, Run(actions, mode, ticks[..n]), ticks[n]);
    }
  }
}

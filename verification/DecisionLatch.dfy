/** The pause latch under concurrency: any number of threads evaluate, take the flag and reset,
  one sequentially consistent atomic operation at a time. */
module DecisionLatch {
  import opened Basics
  import opened Runs
  import Decision

  /** What the rules say about a request; they read no shared state. */
  datatype Rules = Demo | Pass | Violate(rule: Decision.Rule)

  datatype Pc =
    | Allowing                        // about to store 0 into the counter
    | Counting(rule: Decision.Rule)   // about to add 1 to the counter
    | Latching(rule: Decision.Rule)   // about to swap the latch
    | Flagging                        // won the latch, about to set the flag
    | Lifting                         // reset: counter cleared, about to clear the latch
    | Unflagging                      // reset: latch cleared, about to clear the flag
    | Judged(verdict: Decision.Verdict)
    | ResetDone

  /** `takes` counts the takes that returned true, `resets` the resets begun, `crossings` the swaps that
      set the latch and `lifts` the stores that cleared it; `told` whether a take returned true since the
      latch was last set. */
  datatype State = State(
    rejects: nat,
    paused: bool,
    needsDbPause: bool,
    threads: map<nat, Pc>,
    takes: nat,
    resets: nat,
    crossings: nat,
    lifts: nat,
    told: bool)

  datatype Step =
    | Evaluate(th: nat, rules: Rules)
    | StoreZero(th: nat)
    | FetchAdd(th: nat)
    | SwapLatch(th: nat)
    | StoreFlag(th: nat)
    | TakeFlag
    | ResetCounter(th: nat)
    | ClearLatch(th: nat)
    | ClearFlag(th: nat)

  const START: State := State(0, false, false, map[], 0, 0, 0, 0, false)

  predicate AtPc(s: State, th: nat, pc: Pc)
  {
    th in s.threads && s.threads[th] == pc
  }

  predicate Enabled(s: State, step: Step)
  {
    match step
    case Evaluate(th, rules) => th !in s.threads
    case StoreZero(th) => AtPc(s, th, Allowing)
    case FetchAdd(th) => th in s.threads && s.threads[th].Counting?
    case SwapLatch(th) => th in s.threads && s.threads[th].Latching?
    case StoreFlag(th) => AtPc(s, th, Flagging)
    case TakeFlag => true
    case ResetCounter(th) => th !in s.threads
    case ClearLatch(th) => AtPc(s, th, Lifting)
    case ClearFlag(th) => AtPc(s, th, Unflagging)
  }

  function Go(s: State, th: nat, pc: Pc): State
  {
    s.(threads := s.threads[th := pc])
  }

  function Apply(threshold: nat, s: State, step: Step): State
  {
    if !Enabled(s, step) then s else
    match step
    case Evaluate(th, rules) =>
      if s.paused then Go(s, th, Judged(Decision.Halt(Decision.AutoPaused)))
      else (match rules
            case Demo => Go(s, th, Judged(Decision.Halt(Decision.DemoMode)))
            case Pass => Go(s, th, Allowing)
            case Violate(rule) => Go(s, th, Counting(rule)))
    case StoreZero(th) => Go(s, th, Judged(Decision.Allow)).(rejects := 0)
    case FetchAdd(th) =>
      var count, rule := Decision.Count(s.rejects), s.threads[th].rule;
      Go(s, th, if count >= threshold then Latching(rule) else Judged(Decision.Reject(rule))).(rejects := count)
    case SwapLatch(th) =>
      if s.paused then Go(s, th, Judged(Decision.Reject(s.threads[th].rule)))
      else Go(s, th, Flagging).(paused := true, crossings := s.crossings + 1, told := false)
    case StoreFlag(th) => Go(s, th, Judged(Decision.Halt(Decision.AutoPaused))).(needsDbPause := true)
    case TakeFlag => s.(needsDbPause := false, takes := s.takes + (if s.needsDbPause then 1 else 0), told := s.told || s.needsDbPause)
    case ResetCounter(th) => Go(s, th, Lifting).(rejects := 0, resets := s.resets + 1)
    case ClearLatch(th) => Go(s, th, Unflagging).(paused := false, lifts := s.lifts + 1)
    case ClearFlag(th) => Go(s, th, ResetDone).(needsDbPause := false)
  }

  function Latch(threshold: nat): Machine<State, Step>
  {
    Machine((s: State, step: Step) => Enabled(s, step), (s: State, step: Step) => Apply(threshold, s, step))
  }

  function ThreadsAt(s: State, pc: Pc): set<nat>
  {
    set th | th in s.threads && s.threads[th] == pc
  }

  function Bit(b: bool): nat
  {
    if b then 1 else 0
  }

  ghost predicate Inv(s: State)
  {
    && s.takes + Bit(s.needsDbPause) + |ThreadsAt(s, Flagging)| <= s.crossings
    && s.crossings <= s.lifts + Bit(s.paused)
    && s.lifts + |ThreadsAt(s, Lifting)| <= s.resets
    && (s.resets == 0 ==>
          s.takes + Bit(s.needsDbPause) + |ThreadsAt(s, Flagging)| == s.crossings == Bit(s.paused) &&
          ThreadsAt(s, Unflagging) == {})
  }

  /** Moving thread th changes the threads at any point by at most th itself. */
  lemma Moved(s: State, r: State, th: nat, pc: Pc)
    requires th in r.threads && r.threads == s.threads[th := r.threads[th]]
    ensures var before, after := ThreadsAt(s, pc), ThreadsAt(r, pc);
            |after| == |before| - Bit(AtPc(s, th, pc)) + Bit(AtPc(r, th, pc))
  {
    SameOthers(s, r, th, pc);
    Without(ThreadsAt(s, pc), th);
    Without(ThreadsAt(r, pc), th);
  }

  lemma SameOthers(s: State, r: State, th: nat, pc: Pc)
    requires th in r.threads && r.threads == s.threads[th := r.threads[th]]
    ensures ThreadsAt(r, pc) - {th} == ThreadsAt(s, pc) - {th}
  {
  }

  lemma Without(threads: set<nat>, th: nat)
    ensures |threads| == |threads - {th}| + Bit(th in threads)
  {
    assert threads == if th in threads then (threads - {th}) + {th} else threads - {th};
  }

  lemma StepKeeps(threshold: nat, s: State, step: Step)
    requires Inv(s) && Enabled(s, step)
    ensures Inv(Apply(threshold, s, step))
  {
    var r := Apply(threshold, s, step);
    if !step.TakeFlag? {
      Moved(s, r, step.th, Flagging);
      Moved(s, r, step.th, Lifting);
      Moved(s, r, step.th, Unflagging);
    }
  }

  lemma Reachable(threshold: nat, steps: seq<Step>)
    requires Valid(Latch(threshold), START, steps)
    ensures Inv(Final(Latch(threshold), START, steps))
  {
    var m := Latch(threshold);
    forall s, l | Inv(s) && m.enabled(s, l)
      ensures Inv(m.apply(s, l))
    {
      StepKeeps(threshold, s, l);
    }
    Preserved(m, (s: State) => Inv(s), START, steps);
  }

  /** With r resets begun, the flag is taken at most r + 1 times. */
  lemma TakesBounded(threshold: nat, steps: seq<Step>)
    requires Valid(Latch(threshold), START, steps)
    ensures var s := Final(Latch(threshold), START, steps); s.takes <= s.resets + 1
  {
    Reachable(threshold, steps);
  }

  /** Without resets a pause is reported exactly once: it is taken, waits to be taken, or is about to be flagged. */
  lemma ReportedOnce(threshold: nat, steps: seq<Step>)
    requires Valid(Latch(threshold), START, steps)
    requires Final(Latch(threshold), START, steps).resets == 0
    ensures var s := Final(Latch(threshold), START, steps);
            s.takes + Bit(s.needsDbPause) + |ThreadsAt(s, Flagging)| == Bit(s.paused)
  {
    Reachable(threshold, steps);
  }

  predicate InReset(s: State)
  {
    exists th | th in s.threads :: s.threads[th] == Lifting
  }

  /** Without resets the latch, once set, stays set, and every later evaluation halts. */
  lemma {:induction false} PausedForGood(threshold: nat, s: State, steps: seq<Step>, th: nat, rules: Rules)
    requires s.paused && !InReset(s) && Valid(Latch(threshold), s, steps)
    requires forall l | l in steps :: !l.ResetCounter?
    requires th !in Final(Latch(threshold), s, steps).threads
    ensures var r := Final(Latch(threshold), s, steps);
            r.paused && AtPc(Apply(threshold, r, Evaluate(th, rules)), th, Judged(Decision.Halt(Decision.AutoPaused)))
    decreases steps
  {
    if steps == [] {
    } else {
      var l := steps[0];
      assert l in steps;
      StaysPaused(threshold, s, l);
      assert forall x | x in steps[1..] :: x in steps;
      PausedForGood(threshold, Apply(threshold, s, l), steps[1..], th, rules);
    }
  }

  lemma StaysPaused(threshold: nat, s: State, step: Step)
    requires s.paused && !InReset(s) && Enabled(s, step) && !step.ResetCounter?
    ensures var r := Apply(threshold, s, step); r.paused && !InReset(r)
  {
    var r := Apply(threshold, s, step);
    assert forall th | th in r.threads && r.threads[th] == Lifting :: th in s.threads && s.threads[th] == Lifting;
  }

  // ---- When a pause goes unreported ----

  /** The pause was reported, waits to be taken, or is about to be flagged. */
  predicate Reported(s: State)
  {
    s.paused ==> s.needsDbPause || s.told || ThreadsAt(s, Flagging) != {}
  }

  /** A reset clears the flag of a pause nobody was told of yet. */
  predicate Swallows(s: State, step: Step)
  {
    step.ClearFlag? && s.paused && !s.told && ThreadsAt(s, Flagging) == {}
  }

  /** A pause goes unreported exactly by such a step, and stays so until a reset lifts the latch. */
  lemma ReportStep(threshold: nat, s: State, step: Step)
    requires Enabled(s, step)
    ensures Reported(Apply(threshold, s, step)) <==> step.ClearLatch? || (Reported(s) && !Swallows(s, step))
  {
    var r := Apply(threshold, s, step);
    match step
    case TakeFlag =>
    case SwapLatch(th) => FlaggersMove(s, r, th);
    case StoreFlag(th) => assert th in ThreadsAt(s, Flagging);
    case ClearLatch(th) =>
    case _ => FlaggersStay(threshold, s, step);
  }

  /** Whoever wins the latch is about to flag it. */
  lemma FlaggersMove(s: State, r: State, th: nat)
    requires th in s.threads && th in r.threads && s.threads[th] != Flagging && r.threads == s.threads[th := r.threads[th]]
    ensures ThreadsAt(r, Flagging) == ThreadsAt(s, Flagging) + if r.threads[th] == Flagging then {th} else {}
    ensures r.threads[th] == Flagging ==> th in ThreadsAt(r, Flagging)
  {
  }

  lemma FlaggersStay(threshold: nat, s: State, step: Step)
    requires Enabled(s, step) && !step.TakeFlag? && !step.SwapLatch? && !step.StoreFlag?
    ensures ThreadsAt(Apply(threshold, s, step), Flagging) == ThreadsAt(s, Flagging)
  {
  }

  /** The i-th step swallowed the report and no later step lifted the latch. */
  ghost predicate SwallowedAt(threshold: nat, s: State, steps: seq<Step>, i: nat)
  {
    i < |steps| && Swallows(Final(Latch(threshold), s, steps[..i]), steps[i]) &&
    forall j | i < j < |steps| :: !steps[j].ClearLatch?
  }

  ghost predicate Swallowed(threshold: nat, s: State, steps: seq<Step>)
  {
    exists i: nat :: SwallowedAt(threshold, s, steps, i)
  }

  /** For every threshold and every run, resets included: the pause goes unreported exactly when a reset cleared
      the flag of a pause nobody was told of, and no later reset lifted that pause. */
  lemma {:induction false} ReportedUnlessSwallowed(threshold: nat, s: State, steps: seq<Step>)
    requires Reported(s) && Valid(Latch(threshold), s, steps)
    ensures Reported(Final(Latch(threshold), s, steps)) <==> !Swallowed(threshold, s, steps)
    decreases |steps|
  {
    if steps == [] {
    } else {
      var n := |steps| - 1;
      var init, last := steps[..n], steps[n];
      SplitLast(threshold, s, steps);
      ReportedUnlessSwallowed(threshold, s, init);
      ReportStep(threshold, Final(Latch(threshold), s, init), last);
      SwallowedGrows(threshold, s, steps);
    }
  }

  lemma {:induction false} SplitLast(threshold: nat, s: State, steps: seq<Step>)
    requires steps != [] && Valid(Latch(threshold), s, steps)
    ensures var init, last := steps[..|steps| - 1], steps[|steps| - 1];
            && Valid(Latch(threshold), s, init) && Enabled(Final(Latch(threshold), s, init), last)
            && Final(Latch(threshold), s, steps) == Apply(threshold, Final(Latch(threshold), s, init), last)
    decreases |steps|
  {
    if |steps| == 1 {
    } else {
      SplitLast(threshold, Apply(threshold, s, steps[0]), steps[1..]);
      assert steps[1..][..|steps| - 2] == steps[..|steps| - 1][1..];
    }
  }

  lemma SwallowedGrows(threshold: nat, s: State, steps: seq<Step>)
    requires steps != []
    ensures var init, last := steps[..|steps| - 1], steps[|steps| - 1];
            Swallowed(threshold, s, steps) <==>
            Swallows(Final(Latch(threshold), s, init), last) || (Swallowed(threshold, s, init) && !last.ClearLatch?)
  {
    var n := |steps| - 1;
    var init, last := steps[..n], steps[n];
    if Swallows(Final(Latch(threshold), s, init), last) {
      assert SwallowedAt(threshold, s, steps, n);
    }
    if Swallowed(threshold, s, init) && !last.ClearLatch? {
      var i: nat :| SwallowedAt(threshold, s, init, i);
      assert steps[..i] == init[..i];
      assert SwallowedAt(threshold, s, steps, i);
    }
    if Swallowed(threshold, s, steps) {
      var i: nat :| SwallowedAt(threshold, s, steps, i);
      if i < n {
        assert steps[..i] == init[..i];
        assert SwallowedAt(threshold, s, init, i);
      }
    }
  }

  /** Such a step is never far: from any state whatsoever, one reset and enough rejections between its clearing the
      latch and its clearing the flag leave a pause nobody was told of. */
  lemma ResetSwallowsReport(threshold: nat, s: State, rule: Decision.Rule) returns (steps: seq<Step>)
    requires threshold < 0x1_0000_0000
    ensures Valid(Latch(threshold), s, steps) && !Reported(Final(Latch(threshold), s, steps))
  {
    var reset := Unused(s.threads.Keys);
    var m := Latch(threshold);
    steps := Advance(m, s, [], ResetCounter(reset));
    steps := Advance(m, s, steps, ClearLatch(reset));
    var flagged := FlagAll(threshold, Final(m, s, steps));
    Concat(m, s, steps, flagged);
    steps := steps + flagged;
    var crossing := CrossAndClear(threshold, Final(m, s, steps), reset, rule);
    Concat(m, s, steps, crossing);
    steps := steps + crossing;
  }

  /** Threads about to flag do so. */
  lemma {:induction false} FlagAll(threshold: nat, s: State) returns (steps: seq<Step>)
    ensures Valid(Latch(threshold), s, steps)
    ensures var r := Final(Latch(threshold), s, steps);
            && r.paused == s.paused && r.rejects == s.rejects && ThreadsAt(r, Flagging) == {} && r.threads.Keys == s.threads.Keys
            && forall th | th in s.threads && s.threads[th] != Flagging :: r.threads[th] == s.threads[th]
    decreases |ThreadsAt(s, Flagging)|
  {
    var m := Latch(threshold);
    if ThreadsAt(s, Flagging) == {} {
      steps := [];
    } else {
      var th :| th in ThreadsAt(s, Flagging);
      steps := Advance(m, s, [], StoreFlag(th));
      var r := Final(m, s, steps);
      assert ThreadsAt(r, Flagging) == ThreadsAt(s, Flagging) - {th};
      var more := FlagAll(threshold, r);
      Concat(m, s, steps, more);
      steps := steps + more;
    }
  }

  lemma CrossAndClear(threshold: nat, s: State, reset: nat, rule: Decision.Rule) returns (steps: seq<Step>)
    requires threshold < 0x1_0000_0000 && s.rejects < Decision.Effective(threshold)
    requires AtPc(s, reset, Unflagging) && !s.paused && ThreadsAt(s, Flagging) == {}
    ensures Valid(Latch(threshold), s, steps) && !Reported(Final(Latch(threshold), s, steps))
  {
    var unused := Unused(s.threads.Keys);
    var m := Latch(threshold);
    steps := Cross(threshold, s, unused, rule);
    var r := Final(m, s, steps);
    FlaggersStay(threshold, r, ClearFlag(reset));
    steps := Advance(m, s, steps, ClearFlag(reset));
  }

  /** Enough violations by fresh threads latch an unpaused engine and raise the flag. */
  lemma {:induction false} Cross(threshold: nat, s: State, unused: nat, rule: Decision.Rule) returns (steps: seq<Step>)
    requires threshold < 0x1_0000_0000 && s.rejects < Decision.Effective(threshold)
    requires !s.paused && (forall th | th in s.threads :: th < unused) && ThreadsAt(s, Flagging) == {}
    ensures Valid(Latch(threshold), s, steps)
    ensures var r := Final(Latch(threshold), s, steps);
            && r.paused && r.needsDbPause && !r.told && ThreadsAt(r, Flagging) == {}
            && forall th | th in s.threads :: th in r.threads && r.threads[th] == s.threads[th]
    decreases Decision.Effective(threshold) - s.rejects
  {
    var m := Latch(threshold);
    steps := Advance(m, s, [], Evaluate(unused, Violate(rule)));
    steps := Advance(m, s, steps, FetchAdd(unused));
    var r := Final(m, s, steps);
    assert r.rejects == s.rejects + 1;
    var more;
    if r.threads[unused].Latching? {
      more := WinLatch(threshold, r, unused);
    } else {
      more := Cross(threshold, r, unused + 1, rule);
    }
    Concat(m, s, steps, more);
    steps := steps + more;
  }

  lemma WinLatch(threshold: nat, s: State, th: nat) returns (steps: seq<Step>)
    requires !s.paused && th in s.threads && s.threads[th].Latching? && ThreadsAt(s, Flagging) == {}
    ensures Valid(Latch(threshold), s, steps)
    ensures var r := Final(Latch(threshold), s, steps);
            && r.paused && r.needsDbPause && !r.told && ThreadsAt(r, Flagging) == {}
            && r.threads == s.threads[th := Judged(Decision.Halt(Decision.AutoPaused))]
  {
    steps := Advance(Latch(threshold), s, [], SwapLatch(th));
    steps := Advance(Latch(threshold), s, steps, StoreFlag(th));
  }

  // ---- One thread alone ----

  function RulesOf(ctx: Decision.Context): Rules
  {
    if ctx.demoMode then Demo
    else match Decision.Violated(ctx)
      case None => Pass
      case Some(rule) => Violate(rule)
  }

  function EngineOf(s: State): Decision.Engine
  {
    Decision.Engine(s.rejects, s.paused, s.needsDbPause)
  }

  /** An evaluation nobody interrupts is the sequential one. */
  lemma AloneIsSequential(threshold: nat, s: State, th: nat, ctx: Decision.Context) returns (steps: seq<Step>)
    requires th !in s.threads
    ensures Valid(Latch(threshold), s, steps)
    ensures var r := Final(Latch(threshold), s, steps);
            var (engine, verdict) := Decision.AfterEvaluate(threshold, EngineOf(s), ctx);
            EngineOf(r) == engine && r.threads == s.threads[th := Judged(verdict)]
  {
    steps := Advance(Latch(threshold), s, [], Evaluate(th, RulesOf(ctx)));
    var r := Final(Latch(threshold), s, steps);
    if r.threads[th] == Allowing {
      steps := Advance(Latch(threshold), s, steps, StoreZero(th));
    } else if r.threads[th].Counting? {
      var more := RejectAlone(threshold, r, th);
      Concat(Latch(threshold), s, steps, more);
      steps := steps + more;
    }
  }

  lemma RejectAlone(threshold: nat, s: State, th: nat) returns (steps: seq<Step>)
    requires th in s.threads && s.threads[th].Counting?
    ensures Valid(Latch(threshold), s, steps)
    ensures var r := Final(Latch(threshold), s, steps);
            var (engine, verdict) := Decision.AfterReject(threshold, EngineOf(s), s.threads[th].rule);
            EngineOf(r) == engine && r.threads == s.threads[th := Judged(verdict)]
  {
    steps := Advance(Latch(threshold), s, [], FetchAdd(th));
    if Final(Latch(threshold), s, steps).threads[th].Latching? {
      steps := Advance(Latch(threshold), s, steps, SwapLatch(th));
      if Final(Latch(threshold), s, steps).threads[th] == Flagging {
        steps := Advance(Latch(threshold), s, steps, StoreFlag(th));
      }
    }
  }

  /** So is a reset. */
  lemma ResetAlone(threshold: nat, s: State, th: nat) returns (steps: seq<Step>)
    requires th !in s.threads
    ensures Valid(Latch(threshold), s, steps)
    ensures var r := Final(Latch(threshold), s, steps);
            EngineOf(r) == Decision.START && r.threads == s.threads[th := ResetDone] && r.resets == s.resets + 1
  {
    steps := Advance(Latch(threshold), s, [], ResetCounter(th));
    steps := Advance(Latch(threshold), s, steps, ClearLatch(th));
    steps := Advance(Latch(threshold), s, steps, ClearFlag(th));
  }
}

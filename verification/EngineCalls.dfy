/** The decision engine's methods on its own fields, one call at a time.  What a call answers is stated by the
  history of answers alone, and every call is a run of the atomic operations. */
module EngineCalls {
  import opened Basics
  import opened Runs
  import opened Decision
  import Latch = DecisionLatch

  class DecisionEngine {
    const threshold: nat
    var consecutiveRejects: nat
    var autoPaused: bool
    var needsDbPause: bool
    ghost var seen: seq<Event>

    constructor (threshold: nat)
      requires threshold < 0x1_0000_0000
      ensures this.threshold == threshold && Consistent() && seen == [] && Shows(Latch.START)
    {
      this.threshold := threshold;
      consecutiveRejects, autoPaused, needsDbPause := 0, false, false;
      seen := [];
    }

    function Value(): Engine
      reads this
    {
      Engine(consecutiveRejects, autoPaused, needsDbPause)
    }

    /** The fields are what the answers given so far imply. */
    ghost predicate Consistent()
      reads this
    {
      threshold < 0x1_0000_0000 && Implied(threshold, Value(), seen)
    }

    ghost predicate Shows(s: Latch.State)
      reads this
    {
      Latch.EngineOf(s) == Value()
    }

    /** The answer of a rejection that is due: the one that completes the run up to the threshold halts. */
    static ghost function OnViolation(threshold: nat, seen: seq<Event>, rule: Rule): Verdict
    {
      if RejectsSeen(seen) + 1 >= threshold then Halt(AutoPaused) else Reject(rule)
    }

    method Evaluate(ctx: Context, ghost th: nat, ghost s: Latch.State) returns (verdict: Verdict, ghost steps: seq<Latch.Step>)
      requires Consistent() && Shows(s) && th !in s.threads
      modifies this
      ensures Consistent() && seen == old(seen) + [Judged(verdict)]
      ensures verdict == if PauseSeen(old(seen)) then Halt(AutoPaused)
                         else if ctx.demoMode then Halt(DemoMode)
                         else match Violated(ctx)
                              case None => Allow
                              case Some(rule) => OnViolation(threshold, old(seen), rule)
      ensures verdict == Allow <==> !PauseSeen(old(seen)) && !ctx.demoMode && forall rule :: !Violates(ctx, rule)
      ensures verdict.Reject? ==>
                Violates(ctx, verdict.rule) && forall other | Rank(other) < Rank(verdict.rule) :: !Violates(ctx, other)
      ensures Valid(Latch.Latch(threshold), s, steps)
      ensures var r := Final(Latch.Latch(threshold), s, steps);
              Shows(r) && r.threads == s.threads[th := Latch.Judged(verdict)]
    {
      steps := Latch.AloneIsSequential(threshold, s, th, ctx);
      CallKeeps(threshold, Value(), seen, Call.Evaluate(ctx));
      FirstViolated(ctx);
      if autoPaused {
        verdict := Halt(AutoPaused);
        seen := seen + [Judged(verdict)];
        return;
      }
      if ctx.demoMode {
        verdict := Halt(DemoMode);
        seen := seen + [Judged(verdict)];
        return;
      }
      var violated := Violated(ctx);
      if violated.Some? {
        ghost var more;
        verdict, more := OnReject(violated.value, th, s.(threads := s.threads[th := Latch.Counting(violated.value)]));
        return;
      }
      consecutiveRejects := 0;
      verdict := Allow;
      seen := seen + [Judged(verdict)];
    }

    /** A violation, once the guard has found the engine unpaused. */
    method OnReject(rule: Rule, ghost th: nat, ghost s: Latch.State) returns (verdict: Verdict, ghost steps: seq<Latch.Step>)
      requires Consistent() && !PauseSeen(seen) && Shows(s) && Latch.AtPc(s, th, Latch.Counting(rule))
      modifies this
      ensures Consistent() && seen == old(seen) + [Judged(verdict)] && verdict == OnViolation(threshold, old(seen), rule)
      ensures Valid(Latch.Latch(threshold), s, steps)
      ensures var r := Final(Latch.Latch(threshold), s, steps);
              Shows(r) && r.threads == s.threads[th := Latch.Judged(verdict)]
    {
      steps := Latch.RejectAlone(threshold, s, th);
      RejectKeeps(threshold, Value(), seen, rule);
      consecutiveRejects := (consecutiveRejects + 1) % U32;
      verdict := Reject(rule);
      if consecutiveRejects >= threshold {
        var wasPaused := autoPaused;
        autoPaused := true;
        if !wasPaused {
          needsDbPause := true;
          verdict := Halt(AutoPaused);
        }
      }
      assert (Value(), verdict) == AfterReject(threshold, old(Value()), rule);
      seen := seen + [Judged(verdict)];
    }

    /** True exactly for the first take after a pause was reported, unless a reset came between. */
    method TakeNeedsDbPause(ghost s: Latch.State) returns (taken: bool)
      requires Consistent() && Shows(s)
      modifies this
      ensures Consistent() && seen == old(seen) + [Taken(taken)] && taken == PauseDue(old(seen))
      ensures var r := Latch.Apply(threshold, s, Latch.TakeFlag);
              Shows(r) && r.takes == s.takes + (if taken then 1 else 0)
    {
      CallKeeps(threshold, Value(), seen, Take);
      taken := needsDbPause;
      needsDbPause := false;
      seen := seen + [Taken(taken)];
    }

    /** Three stores; afterwards the engine is as if nothing had been rejected. */
    method ResetPause(ghost th: nat, ghost s: Latch.State) returns (ghost steps: seq<Latch.Step>)
      requires Consistent() && Shows(s) && th !in s.threads
      modifies this
      ensures Consistent() && seen == old(seen) + [WasReset]
      ensures !PauseSeen(seen) && !PauseDue(seen) && RejectsSeen(seen) == 0
      ensures Valid(Latch.Latch(threshold), s, steps)
      ensures var r := Final(Latch.Latch(threshold), s, steps);
              Shows(r) && r.threads == s.threads[th := Latch.ResetDone] && r.resets == s.resets + 1
    {
      CallKeeps(threshold, Value(), seen, Reset);
      Newest(seen, WasReset);
      steps := Latch.ResetAlone(threshold, s, th);
      consecutiveRejects := 0;
      autoPaused := false;
      needsDbPause := false;
      seen := seen + [WasReset];
    }
  }

  lemma RejectKeeps(threshold: nat, e: Engine, seen: seq<Event>, rule: Rule)
    requires threshold < 0x1_0000_0000 && Implied(threshold, e, seen) && !e.paused
    ensures var (f, verdict) := AfterReject(threshold, e, rule);
            Implied(threshold, f, seen + [Judged(verdict)]) && verdict == DecisionEngine.OnViolation(threshold, seen, rule)
  {
    var (f, verdict) := AfterReject(threshold, e, rule);
    Newest(seen, Judged(verdict));
  }
}

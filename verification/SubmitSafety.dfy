/** What the idempotency protocol guarantees over every run. */
module SubmitSafety {
  import opened Basics
  import opened Runs
  import opened SubmitProtocol

  // ---- The inductive invariant ----

  /** A handler that owns a reservation is the one whose INSERT made the row, and the row is uncommitted. */
  ghost predicate OwnersHold(s: System)
  {
    forall h | h in s.handlers && Owns(s.handlers[h]) ::
      var me := s.handlers[h];
      me.key in s.table && s.table[me.key] == Row("", me.reservedAt, h)
  }

  ghost predicate OwnersInTime(s: System)
  {
    forall h | h in s.handlers && Owns(s.handlers[h]) :: s.now - s.handlers[h].reservedAt <= TTL
  }

  /** Program points from which a handler can no longer execute or release. */
  predicate Settled(pc: Pc)
  {
    pc.CachingId? || pc.CommittingRow? || pc.Replied? || pc.Gone?
  }

  /** The row that protects a logged submission is still there. */
  ghost predicate Guarded(s: System, e: Submission)
  {
    e.key in s.table && s.table[e.key].holder == e.handler && s.table[e.key].createdAt == e.reservedAt &&
    e.handler in s.handlers && Settled(s.handlers[e.handler].pc)
  }

  /** The submission's retention period is over, for the clock and for any newer row of its key. */
  ghost predicate Expired(s: System, e: Submission)
  {
    e.reservedAt + TTL < s.now && (e.key in s.table ==> e.reservedAt + TTL < s.table[e.key].createdAt)
  }

  ghost predicate LogHeld(r: Regime, s: System)
  {
    forall e | e in s.log && e.key != "" :: Guarded(s, e) || (r == InTime && Expired(s, e))
  }

  /** Two submissions of one key: impossible in `KeepRows`, a retention period apart in `InTime`. */
  ghost predicate Separated(r: Regime, log: seq<Submission>)
  {
    forall i, j | 0 <= i < j < |log| && log[i].key == log[j].key && log[i].key != "" ::
      r == InTime && log[i].reservedAt + TTL < log[j].reservedAt
  }

  ghost predicate Logged(s: System, key: string, id: string)
  {
    exists e :: e in s.log && e.key == key && e.orderId == id
  }

  ghost predicate HandlerIdLogged(s: System, me: Handler)
  {
    match me.pc
    case Recovering(id) => Logged(s, me.key, id)
    case CachingId(id) => Logged(s, me.key, id)
    case CommittingRow(id) => Logged(s, me.key, id)
    case Abandoning(reply) => reply.Id() == ""
    case Replied(reply) => reply.Id() == "" || Logged(s, me.key, reply.Id())
    case _ => true
  }

  /** Every order id stored or replied anywhere is one the log has for that key. */
  ghost predicate TableIdsLogged(s: System)
  {
    forall k | k in s.table && s.table[k].orderId != "" :: Logged(s, k, s.table[k].orderId)
  }

  ghost predicate CacheIdLogged(s: System, c: Cache)
  {
    forall k | k in c && c[k].orderId != "" :: Logged(s, k, c[k].orderId)
  }

  ghost predicate CacheIdsLogged(s: System)
  {
    forall p | p in s.caches :: CacheIdLogged(s, s.caches[p])
  }

  ghost predicate HandlerIdsLogged(s: System)
  {
    forall h | h in s.handlers :: HandlerIdLogged(s, s.handlers[h])
  }

  ghost predicate Inv(r: Regime, s: System)
  {
    && r != Anything
    && OwnersHold(s) && (r == InTime ==> OwnersInTime(s))
    && LogHeld(r, s) && Separated(r, s.log)
    && TableIdsLogged(s) && CacheIdsLogged(s) && HandlerIdsLogged(s)
  }

  // ---- Reservations and the log ----

  /** The step touches neither table, log nor clock, and no handler gains a reservation or leaves a settled point. */
  ghost predicate Calm(s: System, t: System)
  {
    && t.table == s.table && t.log == s.log && t.now == s.now
    && s.handlers.Keys <= t.handlers.Keys
    && forall h | h in t.handlers ::
         if h in s.handlers then
           var before, after := s.handlers[h], t.handlers[h];
           before.key == after.key && before.reservedAt == after.reservedAt &&
           (Owns(after) ==> Owns(before)) && (Settled(before.pc) ==> Settled(after.pc))
         else
           t.handlers[h].pc == Arrived
  }

  predicate IsCalm(step: Step)
  {
    !step.ReserveRow? && !step.SubmitOk? && !step.CommitRow? && !step.ReleaseRow? && !step.Tick? && !step.Cleanup?
  }

  /** Apart from arrivals, crashes, the clock and the cleaner, a step moves one handler of unchanged key. */
  lemma OneMoves(s: System, step: Step)
    requires Enabled(s, step) && !step.Arrive? && !step.Crash? && !step.Tick? && !step.Cleanup?
    ensures var t := Apply(s, step);
            At(t, step.h) && t.handlers == s.handlers[step.h := t.handlers[step.h]] && t.now == s.now &&
            t.handlers[step.h].key == s.handlers[step.h].key
  {
  }

  lemma CalmSteps(s: System, step: Step)
    requires Enabled(s, step) && IsCalm(step)
    ensures Calm(s, Apply(s, step))
  {
    if !step.Arrive? && !step.Crash? {
      OneMoves(s, step);
      CalmMover(s, step);
    }
  }

  lemma CalmMover(s: System, step: Step)
    requires Enabled(s, step) && IsCalm(step) && !step.Arrive? && !step.Crash?
    ensures var t := Apply(s, step);
            t.table == s.table && t.log == s.log && At(t, step.h) &&
            var before, after := s.handlers[step.h], t.handlers[step.h];
            before.reservedAt == after.reservedAt &&
            (Owns(after) ==> Owns(before)) && (Settled(before.pc) ==> Settled(after.pc))
  {
  }

  lemma CalmKeeps(r: Regime, s: System, t: System)
    requires Inv(r, s) && Calm(s, t)
    ensures OwnersHold(t) && (r == InTime ==> OwnersInTime(t)) && LogHeld(r, t) && Separated(r, t.log)
  {
  }

  /** The INSERT that wins the key: a logged submission of the key can only be an expired one. */
  lemma WinKeeps(r: Regime, s: System, h: nat)
    requires OwnersHold(s) && (r == InTime ==> OwnersInTime(s)) && LogHeld(r, s)
    requires Enabled(s, ReserveRow(h, Ok)) && s.handlers[h].key !in s.table
    ensures var t := Apply(s, ReserveRow(h, Ok));
            OwnersHold(t) && (r == InTime ==> OwnersInTime(t)) && LogHeld(r, t)
  {
    var t := Apply(s, ReserveRow(h, Ok));
    forall e | e in t.log && e.key != ""
      ensures Guarded(t, e) || (r == InTime && Expired(t, e))
    {
      assert Guarded(s, e) || (r == InTime && Expired(s, e));
    }
  }

  /** Any other INSERT adds a row nobody holds, or none. */
  lemma LoseKeeps(r: Regime, s: System, h: nat, io: Io)
    requires OwnersHold(s) && (r == InTime ==> OwnersInTime(s)) && LogHeld(r, s)
    requires Enabled(s, ReserveRow(h, io)) && (io != Ok || s.handlers[h].key in s.table)
    ensures var t := Apply(s, ReserveRow(h, io));
            OwnersHold(t) && (r == InTime ==> OwnersInTime(t)) && LogHeld(r, t)
  {
    var t := Apply(s, ReserveRow(h, io));
    forall e | e in t.log && e.key != ""
      ensures Guarded(t, e) || (r == InTime && Expired(t, e))
    {
      assert Guarded(s, e) || (r == InTime && Expired(s, e));
    }
  }

  lemma ReserveKeeps(r: Regime, s: System, h: nat, io: Io)
    requires Inv(r, s) && Enabled(s, ReserveRow(h, io))
    ensures var t := Apply(s, ReserveRow(h, io));
            OwnersHold(t) && (r == InTime ==> OwnersInTime(t)) && LogHeld(r, t) && Separated(r, t.log)
  {
    OnlySubmitsLog(s, ReserveRow(h, io));
    if io == Ok && s.handlers[h].key !in s.table {
      WinKeeps(r, s, h);
    } else {
      LoseKeeps(r, s, h, io);
    }
  }

  lemma OnlySubmitsLog(s: System, step: Step)
    requires !step.SubmitOk?
    ensures Apply(s, step).log == s.log
  {
  }

  lemma SubmitKeeps(r: Regime, s: System, h: nat, id: string)
    requires Inv(r, s) && Enabled(s, SubmitOk(h, id))
    ensures var t := Apply(s, SubmitOk(h, id));
            OwnersHold(t) && (r == InTime ==> OwnersInTime(t)) && LogHeld(r, t) && Separated(r, t.log)
  {
    var me := s.handlers[h];
    var t := Apply(s, SubmitOk(h, id));
    if me.key != "" {
      // The row is this handler's own, so an earlier submission of the key can only be an expired one.
      assert s.table[me.key].holder == h;
      forall e | e in s.log && e.key == me.key
        ensures r == InTime && Expired(s, e)
      {
        assert !Guarded(s, e);
      }
    }
    forall e | e in t.log && e.key != ""
      ensures Guarded(t, e) || (r == InTime && Expired(t, e))
    {
      if e in s.log {
        assert Guarded(s, e) || (r == InTime && Expired(s, e));
      }
    }
  }

  lemma CommitKeeps(r: Regime, s: System, h: nat, applied: bool)
    requires Inv(r, s) && Enabled(s, CommitRow(h, applied))
    ensures var t := Apply(s, CommitRow(h, applied));
            OwnersHold(t) && (r == InTime ==> OwnersInTime(t)) && LogHeld(r, t) && Separated(r, t.log)
  {
    var t := Apply(s, CommitRow(h, applied));
    forall e | e in t.log && e.key != ""
      ensures Guarded(t, e) || (r == InTime && Expired(t, e))
    {
      assert Guarded(s, e) || (r == InTime && Expired(s, e));
    }
  }

  lemma ReleaseKeeps(r: Regime, s: System, h: nat, applied: bool)
    requires Inv(r, s) && Enabled(s, ReleaseRow(h, applied))
    ensures var t := Apply(s, ReleaseRow(h, applied));
            OwnersHold(t) && (r == InTime ==> OwnersInTime(t)) && LogHeld(r, t) && Separated(r, t.log)
  {
    var t := Apply(s, ReleaseRow(h, applied));
    forall e | e in t.log && e.key != ""
      ensures Guarded(t, e) || (r == InTime && Expired(t, e))
    {
      assert Guarded(s, e) || (r == InTime && Expired(s, e));
    }
  }

  lemma ClockKeeps(r: Regime, s: System, step: Step)
    requires Inv(r, s) && Allowed(r, s, step) && (step.Tick? || step.Cleanup?)
    ensures var t := Apply(s, step);
            OwnersHold(t) && (r == InTime ==> OwnersInTime(t)) && LogHeld(r, t) && Separated(r, t.log)
  {
    var t := Apply(s, step);
    forall e | e in t.log && e.key != ""
      ensures Guarded(t, e) || (r == InTime && Expired(t, e))
    {
      assert Guarded(s, e) || (r == InTime && Expired(s, e));
    }
  }

  // ---- Order ids ----

  lemma LogGrows(s: System, step: Step)
    ensures s.log <= Apply(s, step).log
    ensures forall k, id :: Logged(s, k, id) ==> Logged(Apply(s, step), k, id)
  {
  }

  lemma TableIdsKept(s: System, step: Step)
    requires TableIdsLogged(s) && HandlerIdsLogged(s) && Enabled(s, step)
    ensures TableIdsLogged(Apply(s, step))
  {
    LogGrows(s, step);
    if step.CommitRow? {
      assert HandlerIdLogged(s, s.handlers[step.h]);
    } else if IsCalm(step) {
      CalmSteps(s, step);
    }
  }

  predicate TouchesCaches(step: Step)
  {
    step.CheckCache? || step.FillCache? || step.CacheId? || step.DropPlaceholder? || step.DropEntry? || step.Crash?
  }

  lemma CachesUntouched(s: System, step: Step)
    requires !TouchesCaches(step)
    ensures Apply(s, step).caches == s.caches
  {
  }

  lemma CachesTouched(s: System, step: Step)
    requires CacheIdsLogged(s) && HandlerIdsLogged(s) && Enabled(s, step) && TouchesCaches(step)
    ensures forall p | p in Apply(s, step).caches :: CacheIdLogged(s, Apply(s, step).caches[p])
  {
    if step.FillCache? || step.CacheId? {
      assert HandlerIdLogged(s, s.handlers[step.h]);
    }
  }

  lemma CacheIdsKept(s: System, step: Step)
    requires CacheIdsLogged(s) && HandlerIdsLogged(s) && Enabled(s, step)
    ensures CacheIdsLogged(Apply(s, step))
  {
    LogGrows(s, step);
    if TouchesCaches(step) {
      CachesTouched(s, step);
    } else {
      CachesUntouched(s, step);
    }
  }

  lemma HandlerIdsKept(s: System, step: Step)
    requires TableIdsLogged(s) && CacheIdsLogged(s) && HandlerIdsLogged(s) && Enabled(s, step)
    ensures HandlerIdsLogged(Apply(s, step))
  {
    LogGrows(s, step);
    var t := Apply(s, step);
    if !step.Arrive? && !step.Crash? && !step.Tick? && !step.Cleanup? {
      OneMoves(s, step);
      MoverIdLogged(s, step);
      forall h | h in t.handlers
        ensures HandlerIdLogged(t, t.handlers[h])
      {
        if h != step.h {
          assert HandlerIdLogged(s, s.handlers[h]);
        }
      }
    } else {
      forall h | h in t.handlers
        ensures HandlerIdLogged(t, t.handlers[h])
      {
        assert h in s.handlers ==> HandlerIdLogged(s, s.handlers[h]);
      }
    }
  }

  lemma MoverIdLogged(s: System, step: Step)
    requires TableIdsLogged(s) && CacheIdsLogged(s) && HandlerIdsLogged(s) && Enabled(s, step)
    requires !step.Arrive? && !step.Crash? && !step.Tick? && !step.Cleanup?
    ensures At(Apply(s, step), step.h) && HandlerIdLogged(Apply(s, step), Apply(s, step).handlers[step.h])
  {
    match step
    case CheckCache(h) => FoundIdLogged(s, h);
    case CheckTable(h, ok) => TableIdFound(s, h, ok);
    case SubmitOk(h, id) => NewIdLogged(s, h, id);
    case _ => CarriedIdLogged(s, step);
  }

  lemma TableIdFound(s: System, h: nat, ok: bool)
    requires TableIdsLogged(s) && Enabled(s, CheckTable(h, ok))
    ensures var t := Apply(s, CheckTable(h, ok)); At(t, h) && HandlerIdLogged(t, t.handlers[h])
  {
    LogGrows(s, CheckTable(h, ok));
  }

  lemma NewIdLogged(s: System, h: nat, id: string)
    requires Enabled(s, SubmitOk(h, id))
    ensures var t := Apply(s, SubmitOk(h, id)); At(t, h) && HandlerIdLogged(t, t.handlers[h])
  {
    var t := Apply(s, SubmitOk(h, id));
    assert t.log[|s.log|] in t.log;
  }

  /** The handler passes on the id it carries, or none. */
  lemma CarriedIdLogged(s: System, step: Step)
    requires HandlerIdsLogged(s) && Enabled(s, step)
    requires !step.Arrive? && !step.Crash? && !step.Tick? && !step.Cleanup?
    requires !step.CheckCache? && !step.CheckTable? && !step.SubmitOk?
    ensures At(Apply(s, step), step.h) && HandlerIdLogged(Apply(s, step), Apply(s, step).handlers[step.h])
  {
    LogGrows(s, step);
    assert HandlerIdLogged(s, s.handlers[step.h]);
  }

  lemma FoundIdLogged(s: System, h: nat)
    requires CacheIdsLogged(s) && HandlerIdsLogged(s) && Enabled(s, CheckCache(h))
    ensures HandlerIdLogged(Apply(s, CheckCache(h)), Apply(s, CheckCache(h)).handlers[h])
  {
    LogGrows(s, CheckCache(h));
    assert HandlerIdLogged(s, s.handlers[h]);
    assert CacheIdLogged(s, CacheOf(s, s.handlers[h].process));
  }

  // ---- The guarantees ----

  lemma StepKeeps(r: Regime, s: System, step: Step)
    requires Inv(r, s) && Allowed(r, s, step)
    ensures Inv(r, Apply(s, step))
  {
    TableIdsKept(s, step);
    CacheIdsKept(s, step);
    HandlerIdsKept(s, step);
    match step
    case ReserveRow(h, io) => ReserveKeeps(r, s, h, io);
    case SubmitOk(h, id) => SubmitKeeps(r, s, h, id);
    case CommitRow(h, applied) => CommitKeeps(r, s, h, applied);
    case ReleaseRow(h, applied) => ReleaseKeeps(r, s, h, applied);
    case Tick(d) => ClockKeeps(r, s, step);
    case Cleanup => ClockKeeps(r, s, step);
    case _ =>
      CalmSteps(s, step);
      CalmKeeps(r, s, Apply(s, step));
  }

  lemma Reachable(r: Regime, steps: seq<Step>)
    requires r != Anything && Valid(Protocol(r), BOOT, steps)
    ensures Inv(r, Final(Protocol(r), BOOT, steps))
  {
    var m := Protocol(r);
    forall s, l | Inv(r, s) && m.enabled(s, l)
      ensures Inv(r, m.apply(s, l))
    {
      StepKeeps(r, s, l);
    }
    Preserved(m, (s: System) => Inv(r, s), BOOT, steps);
  }

  /** While rows are kept, no schedule, crash or table error lets one key reach the order manager twice. */
  lemma AtMostOnce(steps: seq<Step>, i: nat, j: nat)
    requires Valid(Protocol(KeepRows), BOOT, steps)
    requires var log := Final(Protocol(KeepRows), BOOT, steps).log;
             i < |log| && j < |log| && log[i].key == log[j].key && log[i].key != ""
    ensures i == j
  {
    Reachable(KeepRows, steps);
  }

  /** While rows are kept, every order id any process ever replies for a key is the id of its one submission. */
  lemma Agreement(steps: seq<Step>, h: nat, g: nat)
    requires Valid(Protocol(KeepRows), BOOT, steps)
    requires var s := Final(Protocol(KeepRows), BOOT, steps);
             At(s, h) && At(s, g) && s.handlers[h].pc.Replied? && s.handlers[g].pc.Replied? &&
             s.handlers[h].key == s.handlers[g].key && s.handlers[h].key != "" &&
             s.handlers[h].pc.reply.Id() != "" && s.handlers[g].pc.reply.Id() != ""
    ensures var s := Final(Protocol(KeepRows), BOOT, steps);
            s.handlers[h].pc.reply.Id() == s.handlers[g].pc.reply.Id() &&
            Logged(s, s.handlers[h].key, s.handlers[h].pc.reply.Id())
  {
    Reachable(KeepRows, steps);
    var s := Final(Protocol(KeepRows), BOOT, steps);
    assert HandlerIdLogged(s, s.handlers[h]) && HandlerIdLogged(s, s.handlers[g]);
    var a, b :| a in s.log && b in s.log && a.key == b.key == s.handlers[h].key &&
                a.orderId == s.handlers[h].pc.reply.Id() && b.orderId == s.handlers[g].pc.reply.Id();
    var i :| 0 <= i < |s.log| && s.log[i] == a;
    var j :| 0 <= j < |s.log| && s.log[j] == b;
    AtMostOnce(steps, i, j);
  }

  /** With the cleaner running, submissions of one key by handlers that finish within the retention period are
      logged in the order of their reservations. */
  lemma InReservationOrder(steps: seq<Step>, i: nat, j: nat)
    requires Valid(Protocol(InTime), BOOT, steps)
    requires var log := Final(Protocol(InTime), BOOT, steps).log;
             i < j < |log| && log[i].key == log[j].key && log[i].key != ""
    ensures var log := Final(Protocol(InTime), BOOT, steps).log;
            log[i].reservedAt + 60.0 < log[j].reservedAt
  {
    Reachable(InTime, steps);
  }

  /** A release only ever deletes the row its own handler inserted, never a newer reservation
      and never the row of a submitted order. */
  lemma ReleaseIsOwn(r: Regime, steps: seq<Step>, h: nat)
    requires r != Anything && Valid(Protocol(r), BOOT, steps)
    requires var s := Final(Protocol(r), BOOT, steps); At(s, h) && s.handlers[h].pc == ReleasingRow && s.handlers[h].key != ""
    ensures var s := Final(Protocol(r), BOOT, steps);
            var key := s.handlers[h].key;
            key in s.table && s.table[key] == Row("", s.handlers[h].reservedAt, h) &&
            forall e | e in s.log && e.key == key :: r == InTime && e.reservedAt + TTL < s.handlers[h].reservedAt
  {
    Reachable(r, steps);
    var s := Final(Protocol(r), BOOT, steps);
    forall e | e in s.log && e.key == s.handlers[h].key
      ensures r == InTime && e.reservedAt + TTL < s.handlers[h].reservedAt
    {
      assert Guarded(s, e) || (r == InTime && Expired(s, e));
    }
  }

  // ---- Slow handlers submit out of order ----

  /** Whenever a handler is about to execute, waiting past the retention period, the cleaner and one retry of the same
      key on another process can have its submission logged after that of a later reservation. */
  lemma OverstayReorders(s: System, h: nat) returns (steps: seq<Step>, g: nat)
    requires At(s, h) && s.handlers[h].pc == Executing && s.handlers[h].key != ""
    requires s.handlers[h].key in s.table ==> s.table[s.handlers[h].key].createdAt <= s.now
    ensures Valid(Protocol(Anything), s, steps)
    ensures Final(Protocol(Anything), s, steps).log ==
            s.log + [Submission(s.handlers[h].key, g, "b", s.now + 61.0), Submission(s.handlers[h].key, h, "a", s.handlers[h].reservedAt)]
  {
    var m, key := Protocol(Anything), s.handlers[h].key;
    steps := Overstay(s, key);
    var t := Final(m, s, steps);
    g := Unused(t.handlers.Keys);
    var p := Unused(t.caches.Keys);
    var more := ReserveAfresh(t, g, p, key);
    Concat(m, s, steps, more);
    steps := Advance(m, s, steps + more, SubmitOk(g, "b"));
    steps := Advance(m, s, steps, SubmitOk(h, "a"));
  }

  lemma Overstay(s: System, key: string) returns (steps: seq<Step>)
    requires key in s.table ==> s.table[key].createdAt <= s.now
    ensures Valid(Protocol(Anything), s, steps)
    ensures var t := Final(Protocol(Anything), s, steps);
            t.log == s.log && t.handlers == s.handlers && t.now == s.now + 61.0 && key !in t.table
  {
    steps := Advance(Protocol(Anything), s, [], Tick(61.0));
    steps := Advance(Protocol(Anything), s, steps, Cleanup);
  }

  /** A new request on a new process reserves an absent key. */
  lemma ReserveAfresh(s: System, g: nat, p: nat, key: string) returns (steps: seq<Step>)
    requires key != "" && key !in s.table && g !in s.handlers && p !in s.caches
    ensures Valid(Protocol(Anything), s, steps) && forall l | l in steps :: !l.ReleaseRow? && !l.Tick?
    ensures var r := Final(Protocol(Anything), s, steps);
            r.log == s.log && r.now == s.now && r.table == s.table[key := Row("", s.now, g)] &&
            r.handlers == s.handlers[g := Handler(p, key, Executing, s.now)]
  {
    steps := ArriveAfresh(s, g, p, key);
    var t := Final(Protocol(Anything), s, steps);
    var more := ReserveAbsent(t, g, key);
    Concat(Protocol(Anything), s, steps, more);
    steps := steps + more;
    assert t.handlers[g := Handler(p, key, Executing, s.now)] == s.handlers[g := Handler(p, key, Executing, s.now)];
  }

  lemma ArriveAfresh(s: System, g: nat, p: nat, key: string) returns (steps: seq<Step>)
    requires key != "" && g !in s.handlers && p !in s.caches
    ensures Valid(Protocol(Anything), s, steps) && forall l | l in steps :: !l.ReleaseRow? && !l.Tick?
    ensures var r := Final(Protocol(Anything), s, steps);
            r.log == s.log && r.table == s.table && r.now == s.now && r.handlers == s.handlers[g := Handler(p, key, Checking, s.now)]
  {
    steps := Advance(Protocol(Anything), s, [], Arrive(g, p, key));
    steps := Advance(Protocol(Anything), s, steps, CheckCache(g));
  }

  lemma ReserveAbsent(s: System, g: nat, key: string) returns (steps: seq<Step>)
    requires key !in s.table && At(s, g) && s.handlers[g].pc == Checking && s.handlers[g].key == key
    ensures Valid(Protocol(Anything), s, steps) && forall l | l in steps :: !l.ReleaseRow? && !l.Tick?
    ensures var r := Final(Protocol(Anything), s, steps);
            r.log == s.log && r.now == s.now && r.table == s.table[key := Row("", s.now, g)] &&
            r.handlers == s.handlers[g := s.handlers[g].(pc := Executing, reservedAt := s.now)]
  {
    steps := Advance(Protocol(Anything), s, [], CheckTable(g, true));
    steps := Advance(Protocol(Anything), s, steps, ReserveRow(g, Ok));
  }

  /** A state to overstay in is reached from the empty system for every key. */
  lemma Overstaying(start: System, h: nat, p: nat, key: string) returns (steps: seq<Step>)
    requires start == BOOT && key != ""
    ensures Valid(Protocol(Anything), start, steps) && forall l | l in steps :: !l.ReleaseRow?
    ensures Final(Protocol(Anything), start, steps) ==
            System(61.0, map[p := map[key := Entry("", 0.0)]], map[key := Row("", 0.0, h)],
                   map[h := Handler(p, key, Executing, 0.0)], [])
  {
    steps := Advance(Protocol(Anything), start, [], Arrive(h, p, key));
    steps := Advance(Protocol(Anything), start, steps, CheckCache(h));
    steps := Advance(Protocol(Anything), start, steps, CheckTable(h, true));
    steps := Advance(Protocol(Anything), start, steps, ReserveRow(h, Ok));
    steps := Advance(Protocol(Anything), start, steps, Tick(61.0));
  }
}

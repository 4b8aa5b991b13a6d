/** Whose order id a row holds once the cleaner runs. */
module CommittedRows {
  import opened Basics
  import opened Runs
  import opened SubmitProtocol
  import opened SubmitSafety
  import Retention

  /** Every committed row holds the order its own holder submitted under its own reservation. */
  ghost predicate OwnIds(s: System)
  {
    forall k | k in s.table && s.table[k].orderId != "" ::
      Submission(k, s.table[k].holder, s.table[k].orderId, s.table[k].createdAt) in s.log
  }

  /** A handler that carries an order id has submitted that order. */
  predicate CarrierOk(s: System, h: nat, me: Handler)
  {
    match me.pc
    case CachingId(id) => me.key != "" && Submission(me.key, h, id, me.reservedAt) in s.log
    case CommittingRow(id) => me.key != "" && Submission(me.key, h, id, me.reservedAt) in s.log
    case _ => true
  }

  ghost predicate CarriersLogged(s: System)
  {
    forall h | h in s.handlers :: CarrierOk(s, h, s.handlers[h])
  }

  /** The row the handler would commit into is its own, or gone. */
  predicate OwnCommit(s: System, h: nat)
    requires At(s, h)
  {
    var me := s.handlers[h];
    me.key in s.table ==> s.table[me.key].holder == h && s.table[me.key].createdAt == me.reservedAt
  }

  predicate Commits(s: System, step: Step)
  {
    step.CommitRow? && step.applied && At(s, step.h)
  }

  // ---- Step by step ----

  lemma CarriersKept(s: System, step: Step)
    requires CarriersLogged(s) && Enabled(s, step)
    ensures CarriersLogged(Apply(s, step))
  {
    var t := Apply(s, step);
    LogGrows(s, step);
    forall h | h in t.handlers
      ensures CarrierOk(t, h, t.handlers[h])
    {
      CarrierKept(s, step, h);
    }
  }

  lemma CarrierKept(s: System, step: Step, h: nat)
    requires CarriersLogged(s) && Enabled(s, step) && h in Apply(s, step).handlers
    ensures CarrierOk(Apply(s, step), h, Apply(s, step).handlers[h])
  {
    var t := Apply(s, step);
    if h in s.handlers {
      assert CarrierOk(s, h, s.handlers[h]);
    }
    if step.SubmitOk? {
      assert t.log[|s.log|] in t.log && forall e | e in s.log :: e in t.log;
    } else {
      OnlySubmitsLog(s, step);
      CarrierWas(s, step, h);
    }
  }

  /** Only a submission makes a carrier. */
  lemma CarrierWas(s: System, step: Step, h: nat)
    requires Enabled(s, step) && !step.SubmitOk? && h in Apply(s, step).handlers
    ensures var after := Apply(s, step).handlers[h];
            (after.pc.CachingId? || after.pc.CommittingRow?) ==>
            h in s.handlers && s.handlers[h].key == after.key && s.handlers[h].reservedAt == after.reservedAt &&
            (s.handlers[h].pc.CachingId? || s.handlers[h].pc.CommittingRow?) && s.handlers[h].pc.orderId == after.pc.orderId
  {
    if !step.Arrive? && !step.Crash? && !step.Tick? && !step.Cleanup? {
      OneMoves(s, step);
      MoverWas(s, step);
    }
  }

  lemma MoverWas(s: System, step: Step)
    requires Enabled(s, step) && !step.SubmitOk? && !step.Arrive? && !step.Crash? && !step.Tick? && !step.Cleanup?
    ensures At(Apply(s, step), step.h)
    ensures var before, after := s.handlers[step.h], Apply(s, step).handlers[step.h];
            (after.pc.CachingId? || after.pc.CommittingRow?) ==>
            before.reservedAt == after.reservedAt && before.pc.CachingId? && before.pc.orderId == after.pc.orderId
  {
  }

  lemma OwnIdsKept(s: System, step: Step)
    requires OwnIds(s) && CarriersLogged(s) && Enabled(s, step) && (Commits(s, step) ==> OwnCommit(s, step.h))
    ensures OwnIds(Apply(s, step))
  {
    if step.SubmitOk? {
      assert forall e | e in s.log :: e in Apply(s, step).log;
    } else {
      OnlySubmitsLog(s, step);
      if Commits(s, step) {
        assert CarrierOk(s, step.h, s.handlers[step.h]);
      } else if IsCalm(step) {
        CalmSteps(s, step);
      }
    }
  }

  /** No two submissions have the same order id. */
  ghost predicate IdsDistinct(log: seq<Submission>)
  {
    forall d, e | d in log && e in log && d.orderId == e.orderId :: d == e
  }

  /** In every state such runs reach, an applied commit keeps all rows with their own holders' orders exactly when
      the row is the committing handler's own, or gone. */
  lemma CommitExact(s: System, h: nat)
    requires OwnIds(s) && CarriersLogged(s) && IdsDistinct(s.log) && Enabled(s, CommitRow(h, true))
    requires s.handlers[h].pc.orderId != ""
    ensures OwnIds(Apply(s, CommitRow(h, true))) <==> OwnCommit(s, h)
  {
    var t, me := Apply(s, CommitRow(h, true)), s.handlers[h];
    assert CarrierOk(s, h, me);
    if OwnCommit(s, h) {
      OwnIdsKept(s, CommitRow(h, true));
    } else {
      var row := s.table[me.key];
      assert t.table[me.key] == row.(orderId := me.pc.orderId) && t.log == s.log;
      assert Submission(me.key, row.holder, me.pc.orderId, row.createdAt) != Submission(me.key, h, me.pc.orderId, me.reservedAt);
    }
  }

  // ---- Prompt commits ----

  ghost predicate PromptCommit(s: System, step: Step)
  {
    Commits(s, step) ==> Retention.Fresh(s, s.handlers[step.h].reservedAt)
  }

  /** Releases as the retention window asks, and applied commits within the retention period of their reservation. */
  ghost function Committing(care: Retention.Care): Machine<System, Step>
  {
    Machine((s: System, step: Step) => Enabled(s, step) && Retention.Careful(care, s, step) && PromptCommit(s, step),
            (s: System, step: Step) => Apply(s, step))
  }

  ghost predicate Inv(care: Retention.Care, s: System)
  {
    Retention.Kept(care, s) && OwnIds(s) && CarriersLogged(s)
  }

  lemma PromptIsOwn(care: Retention.Care, s: System, h: nat)
    requires Retention.ClaimsProtected(care, s) && CarriersLogged(s) && Enabled(s, CommitRow(h, true))
    requires Retention.Fresh(s, s.handlers[h].reservedAt)
    ensures OwnCommit(s, h)
  {
    var me := s.handlers[h];
    assert CarrierOk(s, h, me);
    var c := Retention.Claim(me.key, h, me.reservedAt);
    assert Retention.Claimed(s, c);
    assert Retention.Claims(care, s, c);
  }

  lemma StepKeeps(care: Retention.Care, s: System, step: Step)
    requires Inv(care, s) && Committing(care).enabled(s, step)
    ensures Inv(care, Apply(s, step))
  {
    Retention.StepKept(care, s, step);
    CarriersKept(s, step);
    if Commits(s, step) {
      PromptIsOwn(care, s, step.h);
    }
    OwnIdsKept(s, step);
  }

  /** Cleaner running: while releases and commits are prompt, every committed row holds its own holder's order. */
  lemma RowsHoldOwnOrders(care: Retention.Care, steps: seq<Step>)
    requires Valid(Committing(care), BOOT, steps)
    ensures OwnIds(Final(Committing(care), BOOT, steps))
  {
    var m := Committing(care);
    forall s, l | Inv(care, s) && m.enabled(s, l)
      ensures Inv(care, m.apply(s, l))
    {
      StepKeeps(care, s, l);
    }
    Preserved(m, (s: System) => Inv(care, s), BOOT, steps);
  }

  /** Handlers that finish within the retention period are prompt. */
  lemma InTimeOwnOrders(steps: seq<Step>)
    requires Valid(Protocol(InTime), BOOT, steps)
    ensures OwnIds(Final(Protocol(InTime), BOOT, steps))
  {
    var m := Protocol(InTime);
    forall s, l | SubmitSafety.Inv(InTime, s) && OwnIds(s) && CarriersLogged(s) && m.enabled(s, l)
      ensures SubmitSafety.Inv(InTime, m.apply(s, l)) && OwnIds(m.apply(s, l)) && CarriersLogged(m.apply(s, l))
    {
      SubmitSafety.StepKeeps(InTime, s, l);
      CarriersKept(s, l);
      if Commits(s, l) {
        OwnersCommitOwn(s, l.h);
      }
      OwnIdsKept(s, l);
    }
    Preserved(m, (s: System) => SubmitSafety.Inv(InTime, s) && OwnIds(s) && CarriersLogged(s), BOOT, steps);
  }

  lemma OwnersCommitOwn(s: System, h: nat)
    requires OwnersHold(s) && CarriersLogged(s) && Enabled(s, CommitRow(h, true))
    ensures OwnCommit(s, h)
  {
    assert CarrierOk(s, h, s.handlers[h]);
    assert Owns(s.handlers[h]);
  }

  // ---- A slow commit ----

  /** From any state in which a handler is about to commit and its key has no row within the retention period: the
      cleaner and a new reservation, and the commit puts the older order id into the newer, still executing, row. */
  lemma SlowCommit(s: System, h: nat, id: string) returns (steps: seq<Step>, g: nat)
    requires At(s, h) && s.handlers[h].pc == CommittingRow(id) && s.handlers[h].key != ""
    requires s.handlers[h].key in s.table ==> s.table[s.handlers[h].key].createdAt < s.now - TTL
    ensures Valid(Protocol(Anything), s, steps)
    ensures var t, key := Final(Protocol(Anything), s, steps), s.handlers[h].key;
            && g !in s.handlers && At(t, g) && t.handlers[g].pc == Executing && t.handlers[g].key == key
            && key in t.table && t.table[key] == Row(id, s.now, g) && t.log == s.log
  {
    var m, key := Protocol(Anything), s.handlers[h].key;
    steps := Advance(m, s, [], Cleanup);
    var t := Final(m, s, steps);
    assert t == s.(table := Sweep(s.table, s.now));
    g := Unused(s.handlers.Keys);
    var p := Unused(s.caches.Keys);
    var more := ReserveAfresh(t, g, p, key);
    Concat(m, s, steps, more);
    steps := Advance(m, s, steps + more, CommitRow(h, true));
  }
}

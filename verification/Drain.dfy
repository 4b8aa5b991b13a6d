/** Once submissions stop, every schedule runs out of work, and it can only stop with the pipeline empty. */
module Drain {
  import opened Basics
  import opened Runs
  import opened Totals
  import opened OrderPipeline
  import Custody
  import Retries

  /** Steps an order still needs, counting those of the retries left. */
  function OrderWeight(cfg: Config, o: Order): nat
  {
    10 * SatSub(cfg.maxRetries, o.retries) + 9
  }

  function TaskWeight(cfg: Config, me: Task): nat
  {
    var left := 10 * SatSub(cfg.maxRetries, me.order.retries);
    match me.pc
    case Taken => left + 8
    case Inserted => left + 7
    case Snapped => left + 6
    case Executing => left + 5
    case BackingOff => left + 4
    case Sent => 1
    case Closing(_) => 1
    case Stuck => 0
  }

  function QueueWeight(cfg: Config, queue: seq<Order>): nat
  {
    if queue == [] then 0 else OrderWeight(cfg, queue[0]) + QueueWeight(cfg, queue[1..])
  }

  function TaskWeights(cfg: Config, s: State): map<nat, nat>
  {
    map t | t in s.tasks :: TaskWeight(cfg, s.tasks[t])
  }

  ghost function Measure(cfg: Config, s: State): nat
  {
    QueueWeight(cfg, s.queue) + Total(TaskWeights(cfg, s))
  }

  lemma {:induction false} QueueWeightAppend(cfg: Config, queue: seq<Order>, o: Order)
    ensures QueueWeight(cfg, queue + [o]) == QueueWeight(cfg, queue) + OrderWeight(cfg, o)
  {
    if queue == [] {
      assert queue + [o] == [o] && [o][1..] == [];
    } else {
      assert (queue + [o])[1..] == queue[1..] + [o];
      QueueWeightAppend(cfg, queue[1..], o);
    }
  }

  lemma OneTaskLighter(cfg: Config, s: State, r: State, t: nat)
    requires t in s.tasks && t in r.tasks && r.tasks == s.tasks[t := r.tasks[t]]
    ensures Total(TaskWeights(cfg, r)) + TaskWeight(cfg, s.tasks[t]) == Total(TaskWeights(cfg, s)) + TaskWeight(cfg, r.tasks[t])
  {
    TotalUpdate(TaskWeights(cfg, s), t, TaskWeight(cfg, r.tasks[t]));
    assert TaskWeights(cfg, r) == TaskWeights(cfg, s)[t := TaskWeight(cfg, r.tasks[t])];
  }

  lemma OneTaskGone(cfg: Config, s: State, r: State, t: nat)
    requires t in s.tasks && r.tasks == s.tasks - {t}
    ensures Total(TaskWeights(cfg, r)) + TaskWeight(cfg, s.tasks[t]) == Total(TaskWeights(cfg, s))
  {
    TotalRemove(TaskWeights(cfg, s), t);
    assert TaskWeights(cfg, r) == TaskWeights(cfg, s) - {t};
  }

  lemma InnerLighter(cfg: Config, s: State, step: Step)
    requires Enabled(cfg, s, step) && IsInner(step)
    ensures var r := Apply(cfg, s, step); step.t in r.tasks && TaskWeight(cfg, r.tasks[step.t]) < TaskWeight(cfg, s.tasks[step.t])
  {
    Custody.InnerSteps(cfg, s, step);
    InnerPcs(cfg, s, step);
  }

  lemma InnerPcs(cfg: Config, s: State, step: Step)
    requires Enabled(cfg, s, step) && IsInner(step)
    ensures var before, after := s.tasks[step.t].pc, Apply(cfg, s, step).tasks[step.t].pc;
            && (step.Finalize? ==> before.Closing? && after == Stuck)
            && (step.RejectMint? ==> before == Inserted && after.Closing?)
            && (step.Snapshot? ==> before == Inserted && after == Snapped)
            && (step.Decide? ==> before == Snapped && (after == Executing || after.Closing?))
            && (step.Succeed? ==> before == Executing && after.Closing?)
            && (step.Fail? ==> before == Executing && (after == BackingOff || after.Closing?))
  {
  }

  lemma TakeLighter(cfg: Config, s: State)
    requires Enabled(cfg, s, Take) && s.nextTask !in s.tasks
    ensures Measure(cfg, Apply(cfg, s, Take)) < Measure(cfg, s)
  {
    var r := Apply(cfg, s, Take);
    TotalAdd(TaskWeights(cfg, s), s.nextTask, TaskWeight(cfg, r.tasks[s.nextTask]));
    assert TaskWeights(cfg, r) == TaskWeights(cfg, s)[s.nextTask := TaskWeight(cfg, r.tasks[s.nextTask])];
  }

  lemma InsertLighter(cfg: Config, s: State, t: nat)
    requires Enabled(cfg, s, Insert(t))
    ensures Measure(cfg, Apply(cfg, s, Insert(t))) < Measure(cfg, s)
  {
    Custody.InsertEnters(cfg, s, t);
    OneTaskLighter(cfg, s, Apply(cfg, s, Insert(t)), t);
  }

  lemma RequeueLighter(cfg: Config, s: State, t: nat)
    requires Enabled(cfg, s, Requeue(t)) && s.tasks[t].order.retries < cfg.maxRetries
    ensures Measure(cfg, Apply(cfg, s, Requeue(t))) < Measure(cfg, s)
  {
    var r := Apply(cfg, s, Requeue(t));
    var o := s.tasks[t].order;
    QueueWeightAppend(cfg, s.queue, o.(retries := o.retries + 1));
    OneTaskLighter(cfg, s, r, t);
  }

  /** Steps that do work: neither a submission nor a cancellation. */
  predicate Works(step: Step)
  {
    !step.Submit? && !step.Cancel?
  }

  /** Every step that does work makes the remaining work strictly smaller. */
  lemma StepLighter(cfg: Config, s: State, step: Step)
    requires Retries.Accounts(cfg, s) && Custody.TasksNumbered(s)
    requires Enabled(cfg, s, step) && Works(step)
    ensures Measure(cfg, Apply(cfg, s, step)) < Measure(cfg, s)
  {
    var r := Apply(cfg, s, step);
    match step
    case Take => TakeLighter(cfg, s);
    case Requeue(t) =>
      assert Retries.TaskOk(cfg, s, s.tasks[t]);
      RequeueLighter(cfg, s, t);
    case Insert(t) => InsertLighter(cfg, s, t);
    case Remove(t) =>
      Custody.RemoveLeaves(cfg, s, t);
      OneTaskGone(cfg, s, r, t);
    case Finalize(t, true) =>
      Custody.CloseLeaves(cfg, s, t);
      OneTaskGone(cfg, s, r, t);
    case Cancel(id) =>
    case Submit(id, amount) =>
    case _ =>
      Custody.InnerSteps(cfg, s, step);
      InnerLighter(cfg, s, step);
      OneTaskLighter(cfg, s, r, step.t);
  }

  lemma StepAll(cfg: Config, s: State, step: Step)
    requires Retries.Inv(cfg, s) && Enabled(cfg, s, step) && !step.Submit?
    ensures Retries.Inv(cfg, Apply(cfg, s, step))
    ensures Measure(cfg, Apply(cfg, s, step)) + (if Works(step) then 1 else 0) <= Measure(cfg, s)
  {
    if Works(step) {
      StepLighter(cfg, s, step);
    }
    Custody.StepKeeps(cfg, s, step);
    Retries.AccountsKept(cfg, s, step);
  }

  function Worked(steps: seq<Step>): nat
  {
    if steps == [] then 0 else (if Works(steps[0]) then 1 else 0) + Worked(steps[1..])
  }

  /** Without new submissions a schedule has no more working steps than the measure of the state it starts in. */
  lemma {:induction false} SchedulesEnd(cfg: Config, s: State, steps: seq<Step>)
    requires Retries.Inv(cfg, s) && Valid(Schedules(cfg), s, steps)
    requires forall l | l in steps :: !l.Submit?
    ensures Worked(steps) <= Measure(cfg, s)
    decreases steps
  {
    if steps == [] {
    } else {
      var l, m := steps[0], Schedules(cfg);
      assert l in steps && m.enabled(s, l) && m.apply(s, l) == Apply(cfg, s, l);
      StepAll(cfg, s, l);
      assert forall x | x in steps[1..] :: x in steps;
      SchedulesEnd(cfg, Apply(cfg, s, l), steps[1..]);
    }
  }

  /** In particular after any run: whatever was submitted, the rest of the schedule is bounded. */
  lemma EveryRunDrains(cfg: Config, past: seq<Step>, steps: seq<Step>)
    requires Valid(Schedules(cfg), EMPTY, past)
    requires Valid(Schedules(cfg), Final(Schedules(cfg), EMPTY, past), steps)
    requires forall l | l in steps :: !l.Submit?
    ensures Worked(steps) <= Measure(cfg, Final(Schedules(cfg), EMPTY, past))
  {
    Retries.Reachable(cfg, past);
    SchedulesEnd(cfg, Final(Schedules(cfg), EMPTY, past), steps);
  }

  ghost predicate CanStep(cfg: Config, s: State)
  {
    exists step :: Enabled(cfg, s, step) && Works(step)
  }

  lemma Steps(cfg: Config, s: State, step: Step)
    requires Enabled(cfg, s, step) && Works(step)
    ensures CanStep(cfg, s)
  {
  }

  /** A running task can always go on. */
  lemma TaskCanStep(cfg: Config, s: State, t: nat)
    requires t in Running(s)
    ensures CanStep(cfg, s)
  {
    match s.tasks[t].pc
    case Taken => Steps(cfg, s, Insert(t));
    case Inserted => Steps(cfg, s, Snapshot(t));
    case Snapped => Steps(cfg, s, Decide(t, true));
    case Executing => Steps(cfg, s, Succeed(t));
    case BackingOff => Steps(cfg, s, Requeue(t));
    case Sent => Steps(cfg, s, Remove(t));
    case Closing(_) => Steps(cfg, s, Finalize(t, true));
  }

  /** The pipeline stops only when it is empty: then every submitted order is in history, or with a task
      whose closing write failed. */
  lemma StopsOnlyEmpty(cfg: Config, s: State)
    requires Custody.Somewhere(s) && 1 <= cfg.permits && !CanStep(cfg, s)
    ensures s.queue == [] && forall t | t in s.tasks :: s.tasks[t].pc == Stuck
    ensures forall id | id in s.submitted :: id in s.history || Custody.WithTask(s, id)
  {
    if Running(s) != {} {
      var t :| t in Running(s);
      TaskCanStep(cfg, s, t);
    } else if s.queue != [] {
      Steps(cfg, s, Take);
    }
    forall t | t in s.tasks
      ensures s.tasks[t].pc == Stuck
    {
      assert t !in Running(s);
    }
    forall id | id in s.submitted
      ensures id in s.history || Custody.WithTask(s, id)
    {
      assert Custody.InQueue(s, id) || Custody.WithTask(s, id) || id in s.history;
    }
  }

  /** With successful closing writes, every schedule that stops has moved all submitted orders into history,
      whatever was cancelled on the way. */
  lemma DrainsToHistory(cfg: Config, steps: seq<Step>)
    requires 1 <= cfg.permits && Valid(Schedules(cfg), EMPTY, steps)
    requires forall l | l in steps :: l.Finalize? ==> l.written
    requires !CanStep(cfg, Final(Schedules(cfg), EMPTY, steps))
    ensures var s := Final(Schedules(cfg), EMPTY, steps);
            s.queue == [] && s.tasks == map[] && s.active == map[] && s.history.Keys == s.submitted.Keys
  {
    Custody.Reachable(cfg, steps);
    var s := Final(Schedules(cfg), EMPTY, steps);
    StopsOnlyEmpty(cfg, s);
    NobodyStuck(cfg, EMPTY, steps);
    assert forall id | id in s.active :: Custody.Entered(s, id);
    assert s.active == map[];
    assert forall id | id in s.history :: Custody.IsSubmitted(s, s.history[id].order);
  }

  lemma {:induction false} NobodyStuck(cfg: Config, s: State, steps: seq<Step>)
    requires Valid(Schedules(cfg), s, steps) && (forall l | l in steps :: l.Finalize? ==> l.written)
    requires forall t | t in s.tasks :: s.tasks[t].pc != Stuck
    ensures forall t | t in Final(Schedules(cfg), s, steps).tasks :: Final(Schedules(cfg), s, steps).tasks[t].pc != Stuck
    decreases steps
  {
    if steps == [] {
    } else {
      var l := steps[0];
      assert l in steps;
      NotStuckStep(cfg, s, l);
      assert forall x | x in steps[1..] :: x in steps;
      NobodyStuck(cfg, Apply(cfg, s, l), steps[1..]);
    }
  }

  lemma NotStuckStep(cfg: Config, s: State, step: Step)
    requires Enabled(cfg, s, step) && (step.Finalize? ==> step.written)
    requires forall t | t in s.tasks :: s.tasks[t].pc != Stuck
    ensures forall t | t in Apply(cfg, s, step).tasks :: Apply(cfg, s, step).tasks[t].pc != Stuck
  {
  }

  // ---- The pending list ----

  /** With k cancellations so far. */
  ghost predicate PendingCounts(cfg: Config, s: State, k: nat)
  {
    && |s.submitted.Keys| <= |s.pending| + k && |s.pending| <= cfg.maxPending
    && (forall i, j | 0 <= i < j < |s.pending| :: s.pending[i] != s.pending[j])
    && (forall id | id in s.pending :: id in s.submitted)
  }

  function Cancels(steps: seq<Step>): nat
  {
    if steps == [] then 0 else (if steps[0].Cancel? then 1 else 0) + Cancels(steps[1..])
  }

  lemma PendingKept(cfg: Config, s: State, step: Step, k: nat)
    requires PendingCounts(cfg, s, k) && Enabled(cfg, s, step)
    ensures PendingCounts(cfg, Apply(cfg, s, step), k + if step.Cancel? then 1 else 0)
  {
    match step
    case Submit(id, amount) => SubmitListed(cfg, s, id, amount, k);
    case Cancel(id) => OneStruck(s.pending, id);
    case _ => ListsUntouched(cfg, s, step);
  }

  lemma SubmitListed(cfg: Config, s: State, id: Id, amount: nat, k: nat)
    requires PendingCounts(cfg, s, k) && Enabled(cfg, s, Submit(id, amount))
    ensures PendingCounts(cfg, Apply(cfg, s, Submit(id, amount)), k)
  {
    var r := Apply(cfg, s, Submit(id, amount));
    assert r.submitted.Keys == s.submitted.Keys + {id};
    Appended(s.pending, id);
  }

  lemma Appended(ids: seq<Id>, id: Id)
    requires id !in ids && forall i, j | 0 <= i < j < |ids| :: ids[i] != ids[j]
    ensures var more := ids + [id];
            (forall i, j | 0 <= i < j < |more| :: more[i] != more[j]) && forall x :: x in more <==> x in ids || x == id
  {
    assert forall i | 0 <= i < |ids| :: ids[i] in ids;
  }

  /** A list without repetitions loses at most one entry. */
  lemma {:induction false} OneStruck(ids: seq<Id>, id: Id)
    requires forall i, j | 0 <= i < j < |ids| :: ids[i] != ids[j]
    ensures var left := Without(ids, id);
            && |left| <= |ids| <= |left| + 1 && (forall x | x in left :: x in ids)
            && (forall i, j | 0 <= i < j < |left| :: left[i] != left[j])
            && (id !in ids ==> left == ids)
  {
    if ids == [] {
    } else {
      OneStruck(ids[1..], id);
      assert ids == [ids[0]] + ids[1..];
      assert ids[0] !in ids[1..];
    }
  }

  lemma ListsUntouched(cfg: Config, s: State, step: Step)
    requires !step.Submit? && !step.Cancel?
    ensures Apply(cfg, s, step).pending == s.pending && Apply(cfg, s, step).submitted == s.submitted
  {
  }

  lemma {:induction false} PendingRun(cfg: Config, s: State, steps: seq<Step>, k: nat)
    requires PendingCounts(cfg, s, k) && Valid(Schedules(cfg), s, steps)
    ensures PendingCounts(cfg, Final(Schedules(cfg), s, steps), k + Cancels(steps))
    decreases steps
  {
    if steps == [] {
    } else {
      PendingKept(cfg, s, steps[0], k);
      PendingRun(cfg, Apply(cfg, s, steps[0]), steps[1..], k + if steps[0].Cancel? then 1 else 0);
    }
  }

  /** Processing never takes an order off the pending list: in any schedule no more orders are ever accepted
      than the list holds plus one for each cancellation, however many have long been closed. */
  lemma AcceptedBounded(cfg: Config, steps: seq<Step>)
    requires Valid(Schedules(cfg), EMPTY, steps)
    ensures |Final(Schedules(cfg), EMPTY, steps).submitted.Keys| <= cfg.maxPending + Cancels(steps)
  {
    PendingRun(cfg, EMPTY, steps, 0);
  }
}

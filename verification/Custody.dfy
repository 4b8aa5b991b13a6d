/** Where an order can be: in every schedule each submitted order is in the queue, with one task, or in history. */
module Custody {
  import opened Runs
  import opened OrderPipeline

  ghost predicate QueueDistinct(s: State)
  {
    forall i, j | 0 <= i < j < |s.queue| :: s.queue[i].id != s.queue[j].id
  }

  /** Of two tasks with one order, one has sent it back. */
  ghost predicate OneHolder(s: State)
  {
    forall t, u | t in s.tasks && u in s.tasks && t != u && s.tasks[t].order.id == s.tasks[u].order.id ::
      s.tasks[t].pc == Sent || s.tasks[u].pc == Sent
  }

  ghost predicate QueueOrTask(s: State)
  {
    forall i, t | 0 <= i < |s.queue| && t in s.tasks && s.queue[i].id == s.tasks[t].order.id :: s.tasks[t].pc == Sent
  }

  ghost predicate HistoryFinal(s: State)
  {
    && (forall i | 0 <= i < |s.queue| :: s.queue[i].id !in s.history)
    && (forall t | t in s.tasks && s.tasks[t].pc != Sent :: s.tasks[t].order.id !in s.history)
  }

  ghost predicate TasksNumbered(s: State)
  {
    forall t | t in s.tasks :: t < s.nextTask
  }

  /** No order is held twice. */
  ghost predicate Sole(s: State)
  {
    QueueDistinct(s) && OneHolder(s) && QueueOrTask(s) && TasksNumbered(s)
  }

  ghost predicate Entered(s: State, id: Id)
  {
    exists t | t in s.tasks :: s.tasks[t].pc != Taken && s.tasks[t].order.id == id
  }

  /** Only orders of tasks that entered are active. */
  ghost predicate ActiveEntered(s: State)
  {
    forall id | id in s.active :: Entered(s, id)
  }

  predicate IsSubmitted(s: State, o: Order)
  {
    o.id in s.submitted && s.submitted[o.id] == o.amount
  }

  ghost predicate Known(s: State)
  {
    && (forall i | 0 <= i < |s.queue| :: IsSubmitted(s, s.queue[i]))
    && (forall t | t in s.tasks :: IsSubmitted(s, s.tasks[t].order))
    && (forall id | id in s.history :: s.history[id].order.id == id && IsSubmitted(s, s.history[id].order))
    && (forall id | id in s.submitted :: 0 < s.submitted[id])
  }

  predicate InQueue(s: State, id: Id)
  {
    exists i | 0 <= i < |s.queue| :: s.queue[i].id == id
  }

  /** A task has custody unless it already sent the order back. */
  predicate WithTask(s: State, id: Id)
  {
    exists t | t in s.tasks :: s.tasks[t].order.id == id && s.tasks[t].pc != Sent
  }

  ghost predicate Somewhere(s: State)
  {
    forall id | id in s.submitted :: InQueue(s, id) || WithTask(s, id) || id in s.history
  }

  ghost predicate Inv(s: State)
  {
    Sole(s) && HistoryFinal(s) && ActiveEntered(s) && Known(s) && Somewhere(s)
  }

  // ---- Steps inside a task ----

  /** Task t moves between program points where it is entered and keeps its order; nothing else moves. */
  predicate Inner(s: State, r: State, t: nat)
  {
    && r.queue == s.queue && r.active == s.active && r.history == s.history
    && r.submitted == s.submitted && r.nextTask == s.nextTask
    && t in s.tasks && t in r.tasks && r.tasks == s.tasks[t := r.tasks[t]] && r.tasks[t].order == s.tasks[t].order
    && s.tasks[t].pc != Taken && s.tasks[t].pc != Sent && r.tasks[t].pc != Taken && r.tasks[t].pc != Sent
  }

  lemma InnerSteps(cfg: Config, s: State, step: Step)
    requires Enabled(cfg, s, step) && IsInner(step)
    ensures Inner(s, Apply(cfg, s, step), step.t)
  {
  }

  // ---- What the other steps do ----

  /** Task t leaves, and the active entry of its order with it; only closing adds to history. */
  predicate Leaves(s: State, r: State, t: nat)
  {
    && t in s.tasks && r.tasks == s.tasks - {t} && r.active == s.active - {s.tasks[t].order.id}
    && r.queue == s.queue && r.submitted == s.submitted && r.nextTask == s.nextTask
    && (if s.tasks[t].pc == Sent then r.history == s.history
        else s.tasks[t].pc.Closing? && r.history == s.history[s.tasks[t].order.id := Closed(s.tasks[t].order, s.tasks[t].pc.outcome)])
  }

  lemma RemoveLeaves(cfg: Config, s: State, t: nat)
    requires Enabled(cfg, s, Remove(t))
    ensures Leaves(s, Apply(cfg, s, Remove(t)), t)
  {
  }

  lemma CloseLeaves(cfg: Config, s: State, t: nat)
    requires Enabled(cfg, s, Finalize(t, true))
    ensures Leaves(s, Apply(cfg, s, Finalize(t, true)), t)
  {
  }

  /** Task t, just taken, enters. */
  predicate Enters(s: State, r: State, t: nat)
  {
    && t in s.tasks && s.tasks[t].pc == Taken && r.tasks == s.tasks[t := s.tasks[t].(pc := Inserted)]
    && r.active == s.active[s.tasks[t].order.id := s.tasks[t].order]
    && r.queue == s.queue && r.history == s.history && r.submitted == s.submitted && r.nextTask == s.nextTask
  }

  lemma InsertEnters(cfg: Config, s: State, t: nat)
    requires Enabled(cfg, s, Insert(t))
    ensures Enters(s, Apply(cfg, s, Insert(t)), t)
  {
  }

  /** The head of the queue becomes a task. */
  predicate Takes(s: State, r: State)
  {
    && s.queue != [] && r.queue == s.queue[1..] && r.tasks == s.tasks[s.nextTask := Task(s.queue[0], Taken, 0, 0, false)]
    && r.active == s.active && r.history == s.history && r.submitted == s.submitted && r.nextTask == s.nextTask + 1
  }

  lemma TakeTakes(cfg: Config, s: State)
    requires Enabled(cfg, s, Take)
    ensures Takes(s, Apply(cfg, s, Take))
  {
  }

  /** Task t sends its order back with one more retry. */
  predicate SendsBack(s: State, r: State, t: nat)
  {
    && t in s.tasks && s.tasks[t].pc == BackingOff && r.tasks == s.tasks[t := s.tasks[t].(pc := Sent)]
    && r.queue == s.queue + [s.tasks[t].order.(retries := s.tasks[t].order.retries + 1)]
    && r.active == s.active && r.history == s.history && r.submitted == s.submitted && r.nextTask == s.nextTask
  }

  lemma RequeueSendsBack(cfg: Config, s: State, t: nat)
    requires Enabled(cfg, s, Requeue(t))
    ensures SendsBack(s, Apply(cfg, s, Requeue(t)), t)
  {
  }

  predicate Submits(s: State, r: State, id: Id, amount: nat)
  {
    && id !in s.submitted && 0 < amount && r.queue == s.queue + [Order(id, amount, 0)] && r.submitted == s.submitted[id := amount]
    && r.tasks == s.tasks && r.active == s.active && r.history == s.history && r.nextTask == s.nextTask
  }

  lemma SubmitSubmits(cfg: Config, s: State, id: Id, amount: nat)
    requires Enabled(cfg, s, Submit(id, amount))
    ensures Submits(s, Apply(cfg, s, Submit(id, amount)), id, amount)
  {
  }

  /** A cancellation touches no queue, task or history. */
  predicate Strikes(s: State, r: State, id: Id)
  {
    && r.active == s.active - {id} && r.queue == s.queue && r.tasks == s.tasks && r.history == s.history
    && r.submitted == s.submitted && r.nextTask == s.nextTask
  }

  lemma CancelStrikes(cfg: Config, s: State, id: Id)
    ensures Strikes(s, Apply(cfg, s, Cancel(id)), id)
  {
  }

  /** Every enabled step is one of these. */
  ghost predicate Moves(s: State, r: State)
  {
    || (exists t :: Inner(s, r, t)) || (exists t :: Leaves(s, r, t)) || (exists t :: Enters(s, r, t)) || Takes(s, r)
    || (exists t :: SendsBack(s, r, t)) || (exists id, amount :: Submits(s, r, id, amount)) || (exists id :: Strikes(s, r, id))
  }

  lemma StepMoves(cfg: Config, s: State, step: Step)
    requires Enabled(cfg, s, step)
    ensures Moves(s, Apply(cfg, s, step))
  {
    match step
    case Submit(id, amount) => SubmitSubmits(cfg, s, id, amount);
    case Take => TakeTakes(cfg, s);
    case Insert(t) => InsertEnters(cfg, s, t);
    case Requeue(t) => RequeueSendsBack(cfg, s, t);
    case Remove(t) => RemoveLeaves(cfg, s, t);
    case Finalize(t, true) => CloseLeaves(cfg, s, t);
    case Cancel(id) => CancelStrikes(cfg, s, id);
    case _ => InnerSteps(cfg, s, step);
  }

  // ---- No order is held twice ----

  lemma SoleTake(s: State, r: State)
    requires Sole(s) && Takes(s, r)
    ensures Sole(r)
  {
    assert forall i | 0 <= i < |r.queue| :: r.queue[i] == s.queue[i + 1];
  }

  lemma SoleSendBack(s: State, r: State, t: nat)
    requires Sole(s) && SendsBack(s, r, t)
    ensures Sole(r)
  {
    assert forall i | 0 <= i < |s.queue| :: r.queue[i] == s.queue[i];
  }

  lemma SoleSubmit(s: State, r: State, id: Id, amount: nat)
    requires Sole(s) && Known(s) && Submits(s, r, id, amount)
    ensures Sole(r)
  {
    assert forall i | 0 <= i < |s.queue| :: r.queue[i] == s.queue[i] && IsSubmitted(s, s.queue[i]);
  }

  lemma SoleKept(s: State, r: State)
    requires Sole(s) && Known(s) && Moves(s, r)
    ensures Sole(r)
  {
    if Takes(s, r) {
      SoleTake(s, r);
    } else if t :| SendsBack(s, r, t) {
      SoleSendBack(s, r, t);
    } else if id, amount :| Submits(s, r, id, amount) {
      SoleSubmit(s, r, id, amount);
    } else if t :| Leaves(s, r, t) {
      SoleLeave(s, r, t);
    } else {
      SoleStay(s, r);
    }
  }

  lemma SoleLeave(s: State, r: State, t: nat)
    requires Sole(s) && Leaves(s, r, t)
    ensures Sole(r)
  {
  }

  lemma SoleStay(s: State, r: State)
    requires Sole(s) && ((exists t :: Inner(s, r, t)) || (exists t :: Enters(s, r, t)) || (exists id :: Strikes(s, r, id)))
    ensures Sole(r)
  {
  }

  // ---- History and submitted amounts ----

  lemma HistoryKept(s: State, r: State)
    requires Sole(s) && HistoryFinal(s) && Known(s) && Moves(s, r)
    ensures HistoryFinal(r)
  {
    if id, amount :| Submits(s, r, id, amount) {
      HistorySubmit(s, r, id, amount);
    } else if Takes(s, r) {
      assert forall i | 0 <= i < |r.queue| :: r.queue[i] == s.queue[i + 1];
    } else if t :| SendsBack(s, r, t) {
      assert forall i | 0 <= i < |s.queue| :: r.queue[i] == s.queue[i];
    } else if t :| Leaves(s, r, t) {
      HistoryLeave(s, r, t);
    }
  }

  lemma HistorySubmit(s: State, r: State, id: Id, amount: nat)
    requires HistoryFinal(s) && Known(s) && Submits(s, r, id, amount)
    ensures HistoryFinal(r)
  {
    assert forall i | 0 <= i < |s.queue| :: r.queue[i] == s.queue[i];
    assert forall x | x in s.history :: IsSubmitted(s, s.history[x].order);
  }

  lemma HistoryLeave(s: State, r: State, t: nat)
    requires Sole(s) && HistoryFinal(s) && Leaves(s, r, t)
    ensures HistoryFinal(r)
  {
  }

  /** Orders are only passed on: whatever is queued, held or closed was queued or held before. */
  lemma KnownPassed(s: State, r: State)
    requires Known(s) && r.submitted == s.submitted
    requires forall i | 0 <= i < |r.queue| :: IsSubmitted(s, r.queue[i])
    requires forall t | t in r.tasks :: IsSubmitted(s, r.tasks[t].order)
    requires forall id | id in r.history :: r.history[id].order.id == id && IsSubmitted(s, r.history[id].order)
    ensures Known(r)
  {
    assert forall o :: IsSubmitted(s, o) ==> IsSubmitted(r, o);
  }

  lemma KnownKept(s: State, r: State)
    requires Known(s) && Moves(s, r)
    ensures Known(r)
  {
    if id, amount :| Submits(s, r, id, amount) {
      KnownSubmit(s, r, id, amount);
    } else if Takes(s, r) {
      KnownTake(s, r);
    } else if t :| SendsBack(s, r, t) {
      KnownSendBack(s, r, t);
    } else if t :| Leaves(s, r, t) {
      KnownLeave(s, r, t);
    } else {
      KnownPassed(s, r);
    }
  }

  lemma KnownSubmit(s: State, r: State, id: Id, amount: nat)
    requires Known(s) && Submits(s, r, id, amount)
    ensures Known(r)
  {
    assert forall o :: IsSubmitted(s, o) ==> IsSubmitted(r, o);
    assert forall i | 0 <= i < |s.queue| :: r.queue[i] == s.queue[i] && IsSubmitted(s, s.queue[i]);
  }

  lemma KnownTake(s: State, r: State)
    requires Known(s) && Takes(s, r)
    ensures Known(r)
  {
    assert forall i | 0 <= i < |r.queue| :: r.queue[i] == s.queue[i + 1];
    assert IsSubmitted(s, s.queue[0]);
    KnownPassed(s, r);
  }

  lemma KnownSendBack(s: State, r: State, t: nat)
    requires Known(s) && SendsBack(s, r, t)
    ensures Known(r)
  {
    assert IsSubmitted(s, s.tasks[t].order);
    assert forall i | 0 <= i < |s.queue| :: r.queue[i] == s.queue[i];
    KnownPassed(s, r);
  }

  lemma KnownLeave(s: State, r: State, t: nat)
    requires Known(s) && Leaves(s, r, t)
    ensures Known(r)
  {
    assert IsSubmitted(s, s.tasks[t].order);
    KnownPassed(s, r);
  }

  // ---- The active map ----

  /** An order stays entered while its tasks stay entered. */
  lemma EnteredMoves(s: State, r: State, id: Id)
    requires Entered(s, id)
    requires forall t | t in s.tasks && s.tasks[t].pc != Taken && s.tasks[t].order.id == id ::
               t in r.tasks && r.tasks[t].pc != Taken && r.tasks[t].order.id == id
    ensures Entered(r, id)
  {
    var t :| t in s.tasks && s.tasks[t].pc != Taken && s.tasks[t].order.id == id;
    assert t in r.tasks;
  }

  lemma EnteredEnters(s: State, r: State, t: nat, id: Id)
    requires ActiveEntered(s) && Enters(s, r, t) && id in r.active
    ensures Entered(r, id)
  {
    assert t in r.tasks && r.tasks[t].order.id == s.tasks[t].order.id;
    if id != s.tasks[t].order.id {
      EnteredMoves(s, r, id);
    }
  }

  lemma ActiveKept(s: State, r: State)
    requires ActiveEntered(s) && TasksNumbered(s) && Moves(s, r)
    ensures ActiveEntered(r)
  {
    forall id | id in r.active
      ensures Entered(r, id)
    {
      if t :| Enters(s, r, t) {
        EnteredEnters(s, r, t, id);
      } else {
        EnteredMoves(s, r, id);
      }
    }
  }

  // ---- Every submitted order is somewhere ----

  lemma FoundInQueue(s: State, i: nat)
    requires i < |s.queue|
    ensures InQueue(s, s.queue[i].id)
  {
  }

  lemma FoundWithTask(s: State, t: nat)
    requires t in s.tasks && s.tasks[t].pc != Sent
    ensures WithTask(s, s.tasks[t].order.id)
  {
  }

  lemma QueuedMoves(s: State, r: State, id: Id)
    requires InQueue(s, id) && TasksNumbered(s) && Moves(s, r)
    ensures InQueue(r, id) || WithTask(r, id)
  {
    var i :| 0 <= i < |s.queue| && s.queue[i].id == id;
    if Takes(s, r) {
      if i == 0 {
        FoundWithTask(r, s.nextTask);
      } else {
        FoundInQueue(r, i - 1);
      }
    } else {
      assert s.queue <= r.queue;
      FoundInQueue(r, i);
    }
  }

  lemma HeldMoves(s: State, r: State, id: Id)
    requires WithTask(s, id) && TasksNumbered(s) && Moves(s, r)
    ensures InQueue(r, id) || WithTask(r, id) || id in r.history
  {
    var t :| t in s.tasks && s.tasks[t].order.id == id && s.tasks[t].pc != Sent;
    if SendsBack(s, r, t) {
      FoundInQueue(r, |s.queue|);
    } else if !Leaves(s, r, t) {
      HolderStays(s, r, t);
      FoundWithTask(r, t);
    }
  }

  /** Only sending the order back and the written closing end a task's custody. */
  lemma HolderStays(s: State, r: State, t: nat)
    requires t in s.tasks && s.tasks[t].pc != Sent && TasksNumbered(s) && Moves(s, r) && !SendsBack(s, r, t) && !Leaves(s, r, t)
    ensures t in r.tasks && r.tasks[t].pc != Sent && r.tasks[t].order == s.tasks[t].order
  {
  }

  lemma SomewhereKept(s: State, r: State)
    requires Somewhere(s) && TasksNumbered(s) && Moves(s, r)
    ensures Somewhere(r)
  {
    forall id | id in r.submitted
      ensures InQueue(r, id) || WithTask(r, id) || id in r.history
    {
      if id !in s.submitted {
        FoundInQueue(r, |s.queue|);
      } else if InQueue(s, id) {
        QueuedMoves(s, r, id);
      } else if WithTask(s, id) {
        HeldMoves(s, r, id);
      }
    }
  }

  // ---- Every schedule ----

  lemma StepKeeps(cfg: Config, s: State, step: Step)
    requires Inv(s) && Enabled(cfg, s, step)
    ensures Inv(Apply(cfg, s, step))
  {
    var r := Apply(cfg, s, step);
    StepMoves(cfg, s, step);
    SoleKept(s, r);
    HistoryKept(s, r);
    KnownKept(s, r);
    ActiveKept(s, r);
    SomewhereKept(s, r);
  }

  lemma Reachable(cfg: Config, steps: seq<Step>)
    requires Valid(Schedules(cfg), EMPTY, steps)
    ensures Inv(Final(Schedules(cfg), EMPTY, steps))
  {
    var m := Schedules(cfg);
    forall s, l | Inv(s) && m.enabled(s, l)
      ensures Inv(m.apply(s, l))
    {
      StepKeeps(cfg, s, l);
    }
    Preserved(m, (s: State) => Inv(s), EMPTY, steps);
  }

  /** Conservation: in every schedule, whatever is cancelled and however early a retry re-enters, each submitted
      order is in exactly one of queue, custody of a task, and history, it occurs there once, its amount is the
      submitted one everywhere, and it is active only while a task that entered holds it. */
  lemma Conservation(cfg: Config, steps: seq<Step>, id: Id)
    requires Valid(Schedules(cfg), EMPTY, steps)
    requires id in Final(Schedules(cfg), EMPTY, steps).submitted
    ensures var s := Final(Schedules(cfg), EMPTY, steps);
            && (InQueue(s, id) || WithTask(s, id) || id in s.history)
            && !(InQueue(s, id) && WithTask(s, id)) && !(InQueue(s, id) && id in s.history)
            && !(WithTask(s, id) && id in s.history)
            && (forall i, j | 0 <= i < |s.queue| && 0 <= j < |s.queue| && s.queue[i].id == id && s.queue[j].id == id :: i == j)
            && (forall t, u | t in s.tasks && u in s.tasks && s.tasks[t].order.id == id && s.tasks[u].order.id == id &&
                              s.tasks[t].pc != Sent && s.tasks[u].pc != Sent :: t == u)
            && (forall i | 0 <= i < |s.queue| && s.queue[i].id == id :: s.queue[i].amount == s.submitted[id])
            && (forall t | t in s.tasks && s.tasks[t].order.id == id :: s.tasks[t].order.amount == s.submitted[id])
            && (id in s.history ==> s.history[id].order.amount == s.submitted[id])
            && (id in s.active ==> Entered(s, id))
  {
    Reachable(cfg, steps);
    var s := Final(Schedules(cfg), EMPTY, steps);
    assert forall i | 0 <= i < |s.queue| :: IsSubmitted(s, s.queue[i]);
    assert forall t | t in s.tasks :: IsSubmitted(s, s.tasks[t].order);
  }

  // ---- The semaphore ----

  lemma RunningStep(cfg: Config, s: State, step: Step)
    requires Enabled(cfg, s, step)
    ensures step == Take ==> Running(Apply(cfg, s, step)) <= Running(s) + {s.nextTask}
    ensures step != Take ==> Running(Apply(cfg, s, step)) <= Running(s)
  {
  }

  lemma {:induction false} NoLarger(small: set<nat>, large: set<nat>)
    requires small <= large
    ensures |small| <= |large|
  {
    if small != {} {
      var x :| x in small;
      NoLarger(small - {x}, large - {x});
    }
  }

  /** In every schedule, no more tasks run at once than there are permits. */
  lemma PermitsRespected(cfg: Config, steps: seq<Step>)
    requires Valid(Schedules(cfg), EMPTY, steps)
    ensures |Running(Final(Schedules(cfg), EMPTY, steps))| <= cfg.permits
  {
    var m := Schedules(cfg);
    forall s, l | |Running(s)| <= cfg.permits && m.enabled(s, l)
      ensures |Running(m.apply(s, l))| <= cfg.permits
    {
      RunningStep(cfg, s, l);
      NoLarger(Running(m.apply(s, l)), Running(s) + (if l == Take then {s.nextTask} else {}));
    }
    Preserved(m, (s: State) => |Running(s)| <= cfg.permits, EMPTY, steps);
  }
}

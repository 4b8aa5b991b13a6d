/** What orderly runs keep beyond custody: a live order is in the active map, and no other task entered with it. */
module OrderlyCustody {
  import opened Runs
  import opened OrderPipeline
  import Custody

  /** The tasks that share an order: one that still has to remove its entry, one that has not entered. */
  predicate Handover(a: Pc, b: Pc)
  {
    (a == Sent && b == Taken) || (a == Taken && b == Sent)
  }

  ghost predicate Handovers(s: State)
  {
    forall t, u | t in s.tasks && u in s.tasks && t != u && s.tasks[t].order.id == s.tasks[u].order.id ::
      Handover(s.tasks[t].pc, s.tasks[u].pc)
  }

  ghost predicate LiveActive(cfg: Config, s: State)
  {
    forall t | t in s.tasks && Live(cfg, s.tasks[t]) ::
      s.tasks[t].order.id in s.active && s.active[s.tasks[t].order.id] == s.tasks[t].order
  }

  /** Who executes, backs off or has sent back is past the gate; who has not reached the gate is not. */
  predicate GateOk(me: Task)
  {
    && (me.pc == Executing || me.pc == BackingOff || me.pc == Sent ==> me.admitted)
    && (me.pc == Taken || me.pc == Inserted || me.pc == Snapped ==> !me.admitted)
  }

  ghost predicate Gates(s: State)
  {
    forall t | t in s.tasks :: GateOk(s.tasks[t])
  }

  ghost predicate Inv(cfg: Config, s: State)
  {
    Custody.Inv(s) && Handovers(s) && LiveActive(cfg, s) && Gates(s)
  }

  /** A live task was live before; no task leaves a program point it shares its order at. */
  lemma InnerLive(cfg: Config, s: State, step: Step)
    requires Enabled(cfg, s, step) && IsInner(step) && GateOk(s.tasks[step.t])
    ensures var r := Apply(cfg, s, step);
            Custody.Inner(s, r, step.t) && GateOk(r.tasks[step.t]) && (Live(cfg, r.tasks[step.t]) ==> Live(cfg, s.tasks[step.t]))
  {
    Custody.InnerSteps(cfg, s, step);
    InnerLiveTask(cfg, s.tasks[step.t], step, Apply(cfg, s, step).tasks[step.t], s);
  }

  lemma InnerLiveTask(cfg: Config, me: Task, step: Step, next: Task, s: State)
    requires Enabled(cfg, s, step) && IsInner(step) && me == s.tasks[step.t] && next == Apply(cfg, s, step).tasks[step.t] && GateOk(me)
    ensures GateOk(next) && (Live(cfg, next) ==> Live(cfg, me))
  {
  }

  lemma GatesKept(cfg: Config, s: State, step: Step)
    requires Gates(s) && Enabled(cfg, s, step)
    ensures Gates(Apply(cfg, s, step))
  {
    var r := Apply(cfg, s, step);
    match step
    case Submit(id, amount) => Custody.SubmitSubmits(cfg, s, id, amount);
    case Take => Custody.TakeTakes(cfg, s);
    case Insert(t) => Custody.InsertEnters(cfg, s, t);
    case Requeue(t) => Custody.RequeueSendsBack(cfg, s, t);
    case Remove(t) => Custody.RemoveLeaves(cfg, s, t);
    case Finalize(t, true) => Custody.CloseLeaves(cfg, s, t);
    case Cancel(id) => Custody.CancelStrikes(cfg, s, id);
    case _ => InnerLive(cfg, s, step);
  }

  // ---- Entering ----

  /** An order with no active entry has no other task: one that sent it back would be live. */
  lemma EntersAlone(cfg: Config, s: State, t: nat)
    requires Custody.OneHolder(s) && LiveActive(cfg, s) && Gates(s)
    requires AtPc(s, t, Taken) && s.tasks[t].order.id !in s.active
    ensures forall u | u in s.tasks && u != t :: s.tasks[u].order.id != s.tasks[t].order.id
  {
  }

  lemma InsertKeeps(cfg: Config, s: State, r: State, t: nat)
    requires Custody.OneHolder(s) && Handovers(s) && LiveActive(cfg, s) && Gates(s)
    requires Custody.Enters(s, r, t) && s.tasks[t].order.id !in s.active
    ensures Handovers(r) && LiveActive(cfg, r)
  {
    EntersAlone(cfg, s, t);
  }

  // ---- Leaving ----

  /** The task that leaves with its entry is the only one that entered with its order. */
  lemma LeaveKeeps(cfg: Config, s: State, r: State, t: nat)
    requires Handovers(s) && LiveActive(cfg, s) && Custody.Leaves(s, r, t)
    requires Gates(s)
    ensures Handovers(r) && LiveActive(cfg, r)
  {
  }

  lemma TakeKeeps(cfg: Config, s: State, r: State)
    requires Custody.Sole(s) && Handovers(s) && LiveActive(cfg, s) && Custody.Takes(s, r)
    ensures Handovers(r) && LiveActive(cfg, r)
  {
  }

  lemma SendBackKeeps(cfg: Config, s: State, r: State, t: nat)
    requires Custody.OneHolder(s) && Handovers(s) && LiveActive(cfg, s) && Gates(s) && Custody.SendsBack(s, r, t)
    ensures Handovers(r) && LiveActive(cfg, r)
  {
    assert forall u | u in s.tasks && u != t :: s.tasks[u].order.id != s.tasks[t].order.id;
  }

  lemma CancelKeeps(cfg: Config, s: State, id: Id)
    requires Handovers(s) && LiveActive(cfg, s) && Orderly(cfg, s, Cancel(id))
    ensures Handovers(Apply(cfg, s, Cancel(id))) && LiveActive(cfg, Apply(cfg, s, Cancel(id)))
  {
    Custody.CancelStrikes(cfg, s, id);
  }

  lemma InnerKeeps(cfg: Config, s: State, r: State, t: nat)
    requires Handovers(s) && LiveActive(cfg, s) && Custody.Inner(s, r, t) && (Live(cfg, r.tasks[t]) ==> Live(cfg, s.tasks[t]))
    ensures Handovers(r) && LiveActive(cfg, r)
  {
  }

  lemma SharesKept(cfg: Config, s: State, step: Step)
    requires Custody.Sole(s) && Handovers(s) && LiveActive(cfg, s) && Gates(s) && Enabled(cfg, s, step) && Orderly(cfg, s, step)
    ensures Handovers(Apply(cfg, s, step)) && LiveActive(cfg, Apply(cfg, s, step))
  {
    var r := Apply(cfg, s, step);
    match step
    case Submit(id, amount) => Custody.SubmitSubmits(cfg, s, id, amount);
    case Take =>
      Custody.TakeTakes(cfg, s);
      TakeKeeps(cfg, s, r);
    case Insert(t) =>
      Custody.InsertEnters(cfg, s, t);
      InsertKeeps(cfg, s, r, t);
    case Requeue(t) =>
      Custody.RequeueSendsBack(cfg, s, t);
      SendBackKeeps(cfg, s, r, t);
    case Remove(t) =>
      Custody.RemoveLeaves(cfg, s, t);
      LeaveKeeps(cfg, s, r, t);
    case Finalize(t, true) =>
      Custody.CloseLeaves(cfg, s, t);
      LeaveKeeps(cfg, s, r, t);
    case Cancel(id) => CancelKeeps(cfg, s, id);
    case _ =>
      InnerLive(cfg, s, step);
      InnerKeeps(cfg, s, r, step.t);
  }

  lemma StepKeeps(cfg: Config, s: State, step: Step)
    requires Inv(cfg, s) && Enabled(cfg, s, step) && Orderly(cfg, s, step)
    ensures Inv(cfg, Apply(cfg, s, step))
  {
    Custody.StepKeeps(cfg, s, step);
    GatesKept(cfg, s, step);
    SharesKept(cfg, s, step);
  }

  lemma Kept(cfg: Config, s: State, steps: seq<Step>)
    requires Inv(cfg, s) && Valid(OrderlySchedules(cfg), s, steps)
    ensures Inv(cfg, Final(OrderlySchedules(cfg), s, steps))
  {
    var m := OrderlySchedules(cfg);
    forall r, l | Inv(cfg, r) && m.enabled(r, l)
      ensures Inv(cfg, m.apply(r, l))
    {
      StepKeeps(cfg, r, l);
    }
    Preserved(m, (r: State) => Inv(cfg, r), s, steps);
  }

  /** In every orderly run the order of a live task is active, as the task holds it, and no other task entered with it. */
  lemma LiveOrdersActive(cfg: Config, steps: seq<Step>, t: nat)
    requires Valid(OrderlySchedules(cfg), EMPTY, steps)
    requires var s := Final(OrderlySchedules(cfg), EMPTY, steps); t in s.tasks && Live(cfg, s.tasks[t])
    ensures var s := Final(OrderlySchedules(cfg), EMPTY, steps);
            var o := s.tasks[t].order;
            && o.id in s.active && s.active[o.id] == o
            && forall u | u in s.tasks && u != t && s.tasks[u].order.id == o.id :: s.tasks[u].pc == Taken
  {
    Kept(cfg, EMPTY, steps);
  }
}

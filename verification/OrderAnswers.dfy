/** How one task ends and what it leaves when nobody else acts from some point on, read off the stores it meets there. */
module OrderAnswers {
  import opened Basics
  import opened Runs
  import opened Totals
  import opened OrderPipeline
  import opened OrderProcessing
  import Custody

  /** Whether the gate lets an order through next to the other active orders. */
  predicate Passes(cfg: Config, active: map<Id, Order>, order: Order, env: Outcomes)
  {
    env.mintParses && env.otherRulesPass && SatSub(Total(Amounts(active)), order.amount) + order.amount <= cfg.portfolio
  }

  // ---- Runs in which only the task moves ----

  predicate Alone(cfg: Config, s: State, steps: seq<Step>, t: nat, env: Outcomes)
  {
    && Valid(Schedules(cfg), s, steps) && Dictated(steps, t, env) && (forall l | l in steps :: Moves(l, t)) && t in s.tasks
    && var r := Final(Schedules(cfg), s, steps); t !in r.tasks || r.tasks[t].pc == Stuck
  }

  /** The task has ended with this result, and the stores are what the result makes of those of s. */
  predicate Left(cfg: Config, s: State, steps: seq<Step>, t: nat, result: Result)
    requires t in s.tasks
  {
    LeftAs(s, Final(Schedules(cfg), s, steps), t, result)
  }

  predicate LeftAs(s: State, r: State, t: nat, result: Result)
    requires t in s.tasks
  {
    var o := s.tasks[t].order;
    match result
    case Finished(outcome) =>
      t !in r.tasks && r.queue == s.queue && r.active == s.active - {o.id} && r.history == s.history[o.id := Closed(o, outcome)]
    case Retrying =>
      t !in r.tasks && r.queue == s.queue + [o.(retries := o.retries + 1)] && r.active == s.active - {o.id} && r.history == s.history
    case WriteFailed =>
      AtPc(r, t, Stuck) && r.queue == s.queue && r.active == s.active && r.history == s.history
  }

  /** The next step is the task's own, and the rest of the run is such a run again. */
  lemma Next(cfg: Config, s: State, steps: seq<Step>, t: nat, env: Outcomes) returns (step: Step, rest: seq<Step>)
    requires Alone(cfg, s, steps, t, env) && s.tasks[t].pc != Stuck
    ensures Enabled(cfg, s, step) && Moves(step, t) && Follows(env, step)
    ensures Valid(Schedules(cfg), Apply(cfg, s, step), rest)
    ensures Final(Schedules(cfg), s, steps) == Final(Schedules(cfg), Apply(cfg, s, step), rest)
    ensures t in Apply(cfg, s, step).tasks ==> Alone(cfg, Apply(cfg, s, step), rest, t, env)
    ensures forall l | l in rest :: Moves(l, t)
  {
    step, rest := steps[0], steps[1..];
    assert step in steps && forall l | l in rest :: l in steps;
  }

  /** A task that is gone or stuck moves no more. */
  lemma Done(cfg: Config, s: State, steps: seq<Step>, t: nat)
    requires Valid(Schedules(cfg), s, steps) && (forall l | l in steps :: Moves(l, t))
    requires t !in s.tasks || s.tasks[t].pc == Stuck
    ensures Final(Schedules(cfg), s, steps) == s
  {
    forall l | l in steps
      ensures !Enabled(cfg, s, l)
    {
      NoMoveAfterEnd(cfg, s, l, t);
    }
  }

  lemma NoMoveAfterEnd(cfg: Config, s: State, step: Step, t: nat)
    requires Moves(step, t) && (t !in s.tasks || s.tasks[t].pc == Stuck)
    ensures !Enabled(cfg, s, step)
  {
  }

  lemma FromClosing(cfg: Config, s: State, steps: seq<Step>, t: nat, env: Outcomes)
    requires Alone(cfg, s, steps, t, env) && s.tasks[t].pc.Closing?
    ensures Left(cfg, s, steps, t, Ending(s.tasks[t].pc.outcome, env.written))
  {
    var step, rest := Next(cfg, s, steps, t, env);
    Done(cfg, Apply(cfg, s, step), rest, t);
  }

  lemma FromSent(cfg: Config, s: State, steps: seq<Step>, t: nat, env: Outcomes)
    requires Alone(cfg, s, steps, t, env) && s.tasks[t].pc == Sent
    ensures var r := Final(Schedules(cfg), s, steps);
            t !in r.tasks && r.queue == s.queue && r.active == s.active - {s.tasks[t].order.id} && r.history == s.history
  {
    var step, rest := Next(cfg, s, steps, t, env);
    Done(cfg, Apply(cfg, s, step), rest, t);
  }

  lemma FromBackingOff(cfg: Config, s: State, steps: seq<Step>, t: nat, env: Outcomes)
    requires Alone(cfg, s, steps, t, env) && s.tasks[t].pc == BackingOff
    ensures Left(cfg, s, steps, t, Retrying)
  {
    var step, rest := Next(cfg, s, steps, t, env);
    FromSent(cfg, Apply(cfg, s, step), rest, t, env);
  }

  /** From the execution on. */
  lemma FromExecuting(cfg: Config, s: State, steps: seq<Step>, t: nat, env: Outcomes)
    requires Alone(cfg, s, steps, t, env) && s.tasks[t].pc == Executing
    ensures Left(cfg, s, steps, t, AfterExecution(cfg, s.tasks[t].order, env))
  {
    var step, rest := Next(cfg, s, steps, t, env);
    var r := Apply(cfg, s, step);
    ExecutionStep(cfg, s, step, t, env);
    if r.tasks[t].pc == BackingOff {
      FromBackingOff(cfg, r, rest, t, env);
    } else {
      FromClosing(cfg, r, rest, t, env);
    }
  }

  lemma ExecutionStep(cfg: Config, s: State, step: Step, t: nat, env: Outcomes)
    requires AtPc(s, t, Executing) && Enabled(cfg, s, step) && Moves(step, t) && Follows(env, step)
    ensures var r, o := Apply(cfg, s, step), s.tasks[t].order;
            && t in r.tasks && r.tasks[t].order == o && r.queue == s.queue && r.active == s.active && r.history == s.history
            && r.tasks[t].pc == match AfterExecution(cfg, o, env)
                                case Retrying => BackingOff
                                case _ => Closing(if env.execution == Landed then Executed else Failed)
  {
    if step.Fail? {
      FailStep(cfg, s, t, step.error);
    }
  }

  /** From the decision on, whatever became of the active map since the reading. */
  lemma FromSnapped(cfg: Config, s: State, steps: seq<Step>, t: nat, env: Outcomes)
    requires Alone(cfg, s, steps, t, env) && s.tasks[t].pc == Snapped
    ensures var me := s.tasks[t];
            Left(cfg, s, steps, t, if env.otherRulesPass && me.exposure + me.order.amount <= cfg.portfolio
                                   then AfterExecution(cfg, me.order, env) else Ending(Failed, env.written))
  {
    var step, rest := Next(cfg, s, steps, t, env);
    if Apply(cfg, s, step).tasks[t].pc == Executing {
      FromExecuting(cfg, Apply(cfg, s, step), rest, t, env);
    } else {
      FromClosing(cfg, Apply(cfg, s, step), rest, t, env);
    }
  }

  /** From the reading on, whatever the active map holds. */
  lemma FromInserted(cfg: Config, s: State, steps: seq<Step>, t: nat, env: Outcomes)
    requires Alone(cfg, s, steps, t, env) && s.tasks[t].pc == Inserted
    ensures var o := s.tasks[t].order;
            Left(cfg, s, steps, t, if Passes(cfg, s.active, o, env) then AfterExecution(cfg, o, env) else Ending(Failed, env.written))
  {
    var step, rest := Next(cfg, s, steps, t, env);
    if step.Snapshot? {
      FromSnapped(cfg, Apply(cfg, s, step), rest, t, env);
    } else {
      FromClosing(cfg, Apply(cfg, s, step), rest, t, env);
    }
  }

  /** What a whole task with this result makes of queue, active map and history. */
  predicate Leaves(s: State, r: State, t: nat, o: Order, result: Result)
  {
    && (result == WriteFailed <==> t in r.tasks)
    && r.active == (if result == WriteFailed then s.active[o.id := o] else s.active - {o.id})
    && r.queue == (if result == Retrying then s.queue + [o.(retries := o.retries + 1)] else s.queue)
    && r.history == if result.Finished? then s.history[o.id := Closed(o, result.outcome)] else s.history
  }

  /** A task nobody disturbs: its result, and the queue, active map and history afterwards. */
  lemma Undisturbed(cfg: Config, s: State, steps: seq<Step>, t: nat, env: Outcomes)
    requires Alone(cfg, s, steps, t, env) && s.tasks[t].pc == Taken
    ensures var o := s.tasks[t].order;
            var result := if Passes(cfg, s.active[o.id := o], o, env) then AfterExecution(cfg, o, env) else Ending(Failed, env.written);
            Leaves(s, Final(Schedules(cfg), s, steps), t, o, result)
  {
    var step, rest := Next(cfg, s, steps, t, env);
    var o := s.tasks[t].order;
    Custody.InsertEnters(cfg, s, t);
    var u := Apply(cfg, s, Insert(t));
    FromInserted(cfg, u, rest, t, env);
    EnteredLeaves(s, u, Final(Schedules(cfg), s, steps), t, o, if Passes(cfg, u.active, o, env) then AfterExecution(cfg, o, env) else Ending(Failed, env.written));
  }

  lemma EnteredLeaves(s: State, u: State, r: State, t: nat, o: Order, result: Result)
    requires t in u.tasks && u.tasks[t].order == o && LeftAs(u, r, t, result)
    requires u.active == s.active[o.id := o] && u.queue == s.queue && u.history == s.history
    ensures Leaves(s, r, t, o, result)
  {
    assert s.active[o.id := o] - {o.id} == s.active - {o.id};
  }
}

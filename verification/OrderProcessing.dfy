/** `process_order` as one task runs it on the shared stores.  Between any two of its steps everybody else may act:
  other tasks, submissions, cancellations.  Every execution of it is a run of the pipeline. */
module OrderProcessing {
  import opened Basics
  import opened Runs
  import opened Interleaving
  import opened Totals
  import opened OrderPipeline

  /** What the chain made of the order. */
  datatype Execution = Landed | ExecutionError(message: string)

  /** What the environment answers to one task. */
  datatype Outcomes = Outcomes(mintParses: bool, otherRulesPass: bool, execution: Execution, written: bool)

  datatype Result = Finished(outcome: Outcome) | Retrying | WriteFailed

  // ---- The steps of one task ----

  /** The step moves task t. */
  predicate Moves(step: Step, t: nat)
  {
    !step.Submit? && !step.Take? && !step.Cancel? && step.t == t
  }

  /** The step's outcome is the one the environment answers with. */
  predicate Follows(env: Outcomes, step: Step)
  {
    match step
    case RejectMint(_) => !env.mintParses
    case Snapshot(_) => env.mintParses
    case Decide(_, pass) => pass == env.otherRulesPass
    case Succeed(_) => env.execution == Landed
    case Fail(_, error) => env.execution == ExecutionError(error)
    case Finalize(_, written) => written == env.written
    case _ => true
  }

  predicate Dictated(steps: seq<Step>, t: nat, env: Outcomes)
  {
    forall l | l in steps :: Moves(l, t) ==> Follows(env, l)
  }

  /** A step of somebody else; task numbers are not reused. */
  predicate Foreign(s: State, step: Step, t: nat)
  {
    !Moves(step, t) && !(step == Take && s.nextTask == t)
  }

  lemma ForeignKeeps(cfg: Config, s: State, step: Step, t: nat)
    requires t in s.tasks && Enabled(cfg, s, step) && Foreign(s, step, t)
    ensures t in Apply(cfg, s, step).tasks && Apply(cfg, s, step).tasks[t] == s.tasks[t]
  {
  }

  lemma FailStep(cfg: Config, s: State, t: nat, error: string)
    requires AtPc(s, t, Executing)
    ensures var r, me := Apply(cfg, s, Fail(t, error)), s.tasks[t];
            var again := me.order.retries < cfg.maxRetries && Transient(error);
            && r.queue == s.queue && r.active == s.active && r.history == s.history && r.pending == s.pending
            && r.tasks == s.tasks[t := me.(pc := if again then BackingOff else Closing(Failed))]
  {
    RetriableExact(error);
  }

  /** The step a result ends in. */
  function LastStep(result: Result, t: nat): Step
  {
    match result
    case Finished(_) => Finalize(t, true)
    case Retrying => Remove(t)
    case WriteFailed => Finalize(t, false)
  }

  lemma {:induction false} StruckOut(ids: seq<Id>, id: Id)
    ensures id !in Without(ids, id)
    ensures forall other | other != id :: multiset(Without(ids, id))[other] == multiset(ids)[other]
  {
    if ids == [] {
    } else {
      StruckOut(ids[1..], id);
      assert ids == [ids[0]] + ids[1..];
    }
  }

  class OrderManager {
    const cfg: Config
    var queue: seq<Order>
    var active: map<Id, Order>
    var history: map<Id, Closed>
    var pending: seq<Id>

    constructor (cfg: Config)
      ensures this.cfg == cfg && Shows(EMPTY)
    {
      this.cfg := cfg;
      queue, active, history, pending := [], map[], map[], [];
    }

    ghost predicate Shows(s: State)
      reads this
    {
      queue == s.queue && active == s.active && history == s.history && pending == s.pending
    }

    /** A new order; `allowed` tells whether the decision engine's rules but the one on zero amounts let it through,
        `stored` whether the database took the row. */
    method SubmitOrder(id: Id, amount: nat, allowed: bool, stored: bool, ghost s: State)
      returns (accepted: bool, ghost steps: seq<Step>)
      requires Shows(s) && id !in s.submitted
      modifies this`queue, this`pending
      ensures Valid(Schedules(cfg), s, steps) && Shows(Final(Schedules(cfg), s, steps))
      ensures accepted == (0 < amount && allowed && stored && |old(pending)| < cfg.maxPending)
      ensures queue == if accepted then old(queue) + [Order(id, amount, 0)] else old(queue)
      ensures pending == if accepted then old(pending) + [id] else old(pending)
    {
      steps := [];
      accepted := 0 < amount && allowed && stored && |pending| < cfg.maxPending;
      if accepted {
        pending := pending + [id];
        queue := queue + [Order(id, amount, 0)];
        steps := Advance(Schedules(cfg), s, [], Submit(id, amount));
      }
    }

    /** Cancelling strikes the order from the two lists, and from nothing else. */
    method CancelOrder(id: Id, ghost s: State) returns (ghost steps: seq<Step>)
      requires Shows(s)
      modifies this`active, this`pending
      ensures Valid(Schedules(cfg), s, steps) && Shows(Final(Schedules(cfg), s, steps))
      ensures active == old(active) - {id} && id !in pending
      ensures forall other | other != id :: multiset(pending)[other] == multiset(old(pending))[other]
    {
      StruckOut(pending, id);
      pending := Without(pending, id);
      active := active - {id};
      steps := Advance(Schedules(cfg), s, [], Cancel(id));
    }

    /** The summed amounts of the active orders. */
    method TotalActive() returns (sum: nat)
      ensures sum == Total(Amounts(active))
    {
      sum := 0;
      var left := active;
      while left != map[]
        invariant left.Keys <= active.Keys && forall id | id in left :: left[id] == active[id]
        invariant sum + Total(Amounts(left)) == Total(Amounts(active))
        decreases |left.Keys|
      {
        var id :| id in left;
        TotalRemove(Amounts(left), id);
        assert Amounts(left - {id}) == Amounts(left) - {id};
        assert (left - {id}).Keys == left.Keys - {id};
        sum := sum + left[id].amount;
        left := left - {id};
      }
    }

    /** The exposure of the other orders: this order's own entry is taken out again. */
    method ExposureOfOthers(order: Order) returns (exposure: nat)
      ensures exposure == SatSub(Total(Amounts(active)), order.amount)
    {
      var total := TotalActive();
      exposure := if order.amount <= total then total - order.amount else 0;
    }

    /** A run as dictated after which task t is `me`; the stores are those of its last state. */
    ghost predicate Reached(s: State, steps: seq<Step>, t: nat, env: Outcomes, me: Task)
      reads this
    {
      Valid(Schedules(cfg), s, steps) && Dictated(steps, t, env) &&
      var r := Final(Schedules(cfg), s, steps);
      Shows(r) && t in r.tasks && r.tasks[t] == me
    }

    /** A run as dictated that ends with task t, in the step the result tells. */
    ghost predicate Ended(s: State, steps: seq<Step>, t: nat, env: Outcomes, order: Order, result: Result)
      reads this
    {
      Valid(Schedules(cfg), s, steps) && Dictated(steps, t, env) && steps != [] && steps[|steps| - 1] == LastStep(result, t) &&
      var r := Final(Schedules(cfg), s, steps);
      Shows(r) && (if result == WriteFailed then AtPc(r, t, Stuck) else t !in r.tasks && order.id !in r.active) &&
      (result.Finished? ==> order.id in r.history && r.history[order.id] == Closed(order, result.outcome))
    }

    /** One task, from its dequeued order to its end, whatever everybody else does meanwhile. */
    method ProcessOrder(t: nat, env: Outcomes, others: Others<Step>, s: State) returns (result: Result, steps: seq<Step>)
      requires Shows(s) && AtPc(s, t, Taken)
      modifies this`queue, this`active, this`history, this`pending, others
      ensures Ended(s, steps, t, env, s.tasks[t].order, result)
      ensures !env.mintParses || !env.otherRulesPass ==> result == if env.written then Finished(Failed) else WriteFailed
      ensures result == Finished(Executed) ==> env.execution == Landed
      ensures result == Retrying ==> env.execution.ExecutionError? && s.tasks[t].order.retries < cfg.maxRetries && Transient(env.execution.message)
    {
      var me := s.tasks[t];
      steps := Wait(t, me, env, others, s, []);
      me, steps := Enter(t, me, env, s, steps);
      var passed;
      passed, me, steps := Gate(t, me, env, others, s, steps);
      if passed {
        result, steps := Execute(t, me, env, others, s, steps);
      } else {
        result, steps := Close(t, me, env, others, s, steps);
      }
    }

    /** Everybody else acts. */
    method Wait(t: nat, me: Task, env: Outcomes, others: Others<Step>, s: State, before: seq<Step>) returns (steps: seq<Step>)
      requires Reached(s, before, t, env, me)
      modifies this`queue, this`active, this`history, this`pending, others
      ensures before <= steps && Reached(s, steps, t, env, me)
    {
      var batch := others.Next();
      steps := before;
      for i := 0 to |batch|
        invariant before <= steps && Valid(Schedules(cfg), s, steps) && Dictated(steps, t, env)
        invariant t in Final(Schedules(cfg), s, steps).tasks && Final(Schedules(cfg), s, steps).tasks[t] == me
      {
        var r := Final(Schedules(cfg), s, steps);
        if Enabled(cfg, r, batch[i]) && Foreign(r, batch[i], t) {
          ForeignKeeps(cfg, r, batch[i], t);
          Extend(Schedules(cfg), s, steps, batch[i]);
          steps := steps + [batch[i]];
        }
      }
      var r := Final(Schedules(cfg), s, steps);
      queue, active, history, pending := r.queue, r.active, r.history, r.pending;
    }

    method Enter(t: nat, me: Task, env: Outcomes, s: State, before: seq<Step>) returns (next: Task, steps: seq<Step>)
      requires me.pc == Taken && Reached(s, before, t, env, me)
      modifies this`active
      ensures active == old(active)[me.order.id := me.order]
      ensures steps == before + [Insert(t)] && next == me.(pc := Inserted) && Reached(s, steps, t, env, next)
    {
      active := active[me.order.id := me.order];
      next := me.(pc := Inserted);
      Extend(Schedules(cfg), s, before, Insert(t));
      steps := before + [Insert(t)];
    }

    /** Mint, exposure and the other rules: whether the order may execute. */
    method Gate(t: nat, me: Task, env: Outcomes, others: Others<Step>, s: State, before: seq<Step>)
      returns (passed: bool, next: Task, steps: seq<Step>)
      requires me.pc == Inserted && Reached(s, before, t, env, me)
      modifies this`queue, this`active, this`history, this`pending, others
      ensures before <= steps && Reached(s, steps, t, env, next) && next.order == me.order
      ensures next.pc == if passed then Executing else Closing(Failed)
      ensures passed <==> env.mintParses && env.otherRulesPass && next.exposure + me.order.amount <= cfg.portfolio
    {
      steps := Wait(t, me, env, others, s, before);
      if env.mintParses {
        passed, next, steps := Judge(t, me, env, others, s, steps);
      } else {
        passed, next := false, me.(pc := Closing(Failed));
        Extend(Schedules(cfg), s, steps, RejectMint(t));
        steps := steps + [RejectMint(t)];
      }
    }

    /** Read the exposure, then decide on it; the map may change in between. */
    method Judge(t: nat, me: Task, env: Outcomes, others: Others<Step>, s: State, before: seq<Step>)
      returns (passed: bool, next: Task, steps: seq<Step>)
      requires env.mintParses && me.pc == Inserted && Reached(s, before, t, env, me)
      modifies this`queue, this`active, this`history, this`pending, others
      ensures before <= steps && Reached(s, steps, t, env, next) && next.order == me.order
      ensures next.pc == if passed then Executing else Closing(Failed)
      ensures passed <==> env.otherRulesPass && next.exposure + me.order.amount <= cfg.portfolio
      ensures var total := Total(Amounts(old(active)));
              next.exposure == if me.order.amount <= total then total - me.order.amount else 0
    {
      next, steps := ReadExposure(t, me, env, s, before);
      steps := Wait(t, next, env, others, s, steps);
      passed, next, steps := MakeDecision(t, next, env, s, steps);
    }

    method ReadExposure(t: nat, me: Task, env: Outcomes, s: State, before: seq<Step>) returns (next: Task, steps: seq<Step>)
      requires env.mintParses && me.pc == Inserted && Reached(s, before, t, env, me)
      ensures steps == before + [Snapshot(t)] && Reached(s, steps, t, env, next)
      ensures next.pc == Snapped && next.order == me.order && next.exposure == SatSub(Total(Amounts(active)), me.order.amount)
    {
      var exposure := ExposureOfOthers(me.order);
      next := me.(pc := Snapped, exposure := exposure, stamp := Final(Schedules(cfg), s, before).clock);
      Extend(Schedules(cfg), s, before, Snapshot(t));
      steps := before + [Snapshot(t)];
    }

    method MakeDecision(t: nat, me: Task, env: Outcomes, s: State, before: seq<Step>)
      returns (passed: bool, next: Task, steps: seq<Step>)
      requires me.pc == Snapped && Reached(s, before, t, env, me)
      ensures steps == before + [Decide(t, env.otherRulesPass)] && Reached(s, steps, t, env, next)
      ensures next.order == me.order && next.exposure == me.exposure && next.pc == if passed then Executing else Closing(Failed)
      ensures passed <==> env.otherRulesPass && me.exposure + me.order.amount <= cfg.portfolio
    {
      passed := env.otherRulesPass && me.exposure + me.order.amount <= cfg.portfolio;
      next := if passed then me.(pc := Executing, admitted := true) else me.(pc := Closing(Failed));
      Extend(Schedules(cfg), s, before, Decide(t, env.otherRulesPass));
      steps := before + [Decide(t, env.otherRulesPass)];
    }

    /** The execution itself and what follows from its result. */
    method Execute(t: nat, me: Task, env: Outcomes, others: Others<Step>, s: State, before: seq<Step>)
      returns (result: Result, steps: seq<Step>)
      requires me.pc == Executing && Reached(s, before, t, env, me)
      modifies this`queue, this`active, this`history, this`pending, others
      ensures before <= steps && Ended(s, steps, t, env, me.order, result)
      ensures result == AfterExecution(cfg, me.order, env)
      ensures env.execution == Landed ==> result == if env.written then Finished(Executed) else WriteFailed
      ensures env.execution.ExecutionError? ==>
                var message := env.execution.message;
                var hopeless := Mentions(message, "invalid mint") || Mentions(message, "insufficient funds") ||
                                Mentions(message, "insufficient lamports") || Mentions(message, "already processed");
                result == if me.order.retries < cfg.maxRetries && !hopeless then Retrying
                          else if env.written then Finished(Failed) else WriteFailed
    {
      steps := Wait(t, me, env, others, s, before);
      var next;
      next, steps := Conclude(t, me, env, s, steps);
      if next.pc == BackingOff {
        steps := Retry(t, next, env, others, s, steps);
        result := Retrying;
      } else {
        result, steps := Close(t, next, env, others, s, steps);
      }
    }

    method Conclude(t: nat, me: Task, env: Outcomes, s: State, before: seq<Step>) returns (next: Task, steps: seq<Step>)
      requires me.pc == Executing && Reached(s, before, t, env, me)
      ensures before <= steps && Reached(s, steps, t, env, next) && next.order == me.order
      ensures next.pc == match env.execution
                         case Landed => Closing(Executed)
                         case ExecutionError(message) =>
                           if me.order.retries < cfg.maxRetries && Transient(message) then BackingOff else Closing(Failed)
    {
      if env.execution == Landed {
        next := me.(pc := Closing(Executed));
        Extend(Schedules(cfg), s, before, Succeed(t));
        steps := before + [Succeed(t)];
      } else {
        next, steps := Fall(t, me, env.execution.message, env, s, before);
      }
    }

    method Fall(t: nat, me: Task, error: string, env: Outcomes, s: State, before: seq<Step>) returns (next: Task, steps: seq<Step>)
      requires env.execution == ExecutionError(error) && me.pc == Executing && Reached(s, before, t, env, me)
      ensures steps == before + [Fail(t, error)] && Reached(s, steps, t, env, next)
      ensures var again := me.order.retries < cfg.maxRetries && Transient(error);
              next == me.(pc := if again then BackingOff else Closing(Failed))
    {
      var again := me.order.retries < cfg.maxRetries && IsRetriable(error);
      next := me.(pc := if again then BackingOff else Closing(Failed));
      Extend(Schedules(cfg), s, before, Fail(t, error));
      steps := before + [Fail(t, error)];
      RetriableExact(error);
      FailStep(cfg, Final(Schedules(cfg), s, before), t, error);
    }

    /** Send the order back with one more retry, then drop its active entry: a faster task may have put it there anew. */
    method Retry(t: nat, me: Task, env: Outcomes, others: Others<Step>, s: State, before: seq<Step>) returns (steps: seq<Step>)
      requires me.pc == BackingOff && Reached(s, before, t, env, me)
      modifies this`queue, this`active, this`history, this`pending, others
      ensures before <= steps && Ended(s, steps, t, env, me.order, Retrying)
    {
      steps := Wait(t, me, env, others, s, before);
      steps := SendBack(t, me, env, s, steps);
      steps := Wait(t, me.(pc := Sent), env, others, s, steps);
      active := active - {me.order.id};
      Extend(Schedules(cfg), s, steps, Remove(t));
      steps := steps + [Remove(t)];
    }

    method SendBack(t: nat, me: Task, env: Outcomes, s: State, before: seq<Step>) returns (steps: seq<Step>)
      requires me.pc == BackingOff && Reached(s, before, t, env, me)
      modifies this`queue
      ensures queue == old(queue) + [me.order.(retries := me.order.retries + 1)]
      ensures steps == before + [Requeue(t)] && Reached(s, steps, t, env, me.(pc := Sent))
    {
      queue := queue + [me.order.(retries := me.order.retries + 1)];
      Extend(Schedules(cfg), s, before, Requeue(t));
      steps := before + [Requeue(t)];
    }

    /** Write the outcome; only then move the order from the active map to history. */
    method Close(t: nat, me: Task, env: Outcomes, others: Others<Step>, s: State, before: seq<Step>)
      returns (result: Result, steps: seq<Step>)
      requires me.pc.Closing? && Reached(s, before, t, env, me)
      modifies this`queue, this`active, this`history, this`pending, others
      ensures before <= steps && Ended(s, steps, t, env, me.order, result)
      ensures result == Ending(me.pc.outcome, env.written)
    {
      steps := Wait(t, me, env, others, s, before);
      if env.written {
        active := active - {me.order.id};
        history := history[me.order.id := Closed(me.order, me.pc.outcome)];
        result := Finished(me.pc.outcome);
      } else {
        result := WriteFailed;
      }
      Extend(Schedules(cfg), s, steps, Finalize(t, env.written));
      steps := steps + [Finalize(t, env.written)];
    }
  }

  /** How closing ends: only a written outcome is final. */
  function Ending(outcome: Outcome, written: bool): Result
  {
    if written then Finished(outcome) else WriteFailed
  }

  function AfterExecution(cfg: Config, order: Order, env: Outcomes): Result
  {
    match env.execution
    case Landed => Ending(Executed, env.written)
    case ExecutionError(message) =>
      if order.retries < cfg.maxRetries && Transient(message) then Retrying else Ending(Failed, env.written)
  }
}

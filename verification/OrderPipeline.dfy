/** The order pipeline: submission queue, concurrent execution tasks, the map of active
  orders the exposure limit is computed from, retries and history.

  A task walks through the program points of `process_order`; any number of tasks
  interleave at those points.  Amounts are lamports.
 */
module OrderPipeline {
  import opened Basics
  import opened Runs
  import opened Totals

  type Id = nat

  datatype Order = Order(id: Id, amount: nat, retries: nat)

  datatype Config = Config(
    portfolio: nat,     // exposure limit
    maxRetries: nat,
    retryDelay: nat,
    permits: nat,       // tasks the semaphore lets run at once
    maxPending: nat)    // capacity of the pending list

  datatype Outcome = Executed | Failed

  datatype Pc =
    | Taken             // dequeued, not yet in the active map
    | Inserted
    | Snapped           // exposure read, decision pending
    | Executing
    | BackingOff        // execution failed, retry scheduled
    | Sent              // retry enqueued, active entry not yet removed
    | Closing(outcome: Outcome)
    | Stuck             // the closing database write failed: the task ended, its entry stays

  /** `exposure` is what the task read of the others; `stamp` orders the readings;
      `admitted` once the gate let the order through. */
  datatype Task = Task(order: Order, pc: Pc, exposure: nat, stamp: nat, admitted: bool)

  datatype Closed = Closed(order: Order, outcome: Outcome)

  /** The last five fields only record the past: amounts, executions started and time slept per
      order, and counters for fresh task numbers and stamps. */
  datatype State = State(
    queue: seq<Order>,
    tasks: map<nat, Task>,
    active: map<Id, Order>,
    history: map<Id, Closed>,
    pending: seq<Id>,
    submitted: map<Id, nat>,
    runs: map<Id, nat>,
    slept: map<Id, nat>,
    nextTask: nat,
    clock: nat)

  datatype Step =
    | Submit(id: Id, amount: nat)
    | Take
    | Insert(t: nat)
    | RejectMint(t: nat)
    | Snapshot(t: nat)
    | Decide(t: nat, otherRulesPass: bool)
    | Succeed(t: nat)
    | Fail(t: nat, error: string)
    | Requeue(t: nat)
    | Remove(t: nat)
    | Finalize(t: nat, written: bool)
    | Cancel(id: Id)

  const EMPTY: State := State([], map[], map[], map[], [], map[], map[], map[], 0, 0)

  // ---- Which errors are retried, and after how long ----

  function Lower(s: string): string
  {
    seq(|s|, i requires 0 <= i < |s| => if 'A' <= s[i] <= 'Z' then s[i] + 32 as char else s[i])
  }

  predicate Contains(s: string, part: string)
  {
    exists i | 0 <= i <= |s| :: part <= s[i..]
  }

  predicate IsRetriable(error: string)
  {
    var lower := Lower(error);
    && !Contains(lower, "invalid mint")
    && !Contains(lower, "insufficient funds")
    && !Contains(lower, "insufficient lamports")
    && !Contains(lower, "already processed")
  }

  // ---- The same, without lowering anything ----

  /** Equal up to the case of ASCII letters. */
  predicate SameLetter(x: char, y: char)
  {
    x == y || ('A' <= x <= 'Z' && y as int == x as int + 32) || ('A' <= y <= 'Z' && x as int == y as int + 32)
  }

  predicate SameText(a: string, b: string)
  {
    |a| == |b| && forall i | 0 <= i < |a| :: SameLetter(a[i], b[i])
  }

  predicate StandsAt(message: string, error: string, i: nat)
  {
    i + |message| <= |error| && SameText(error[i..i + |message|], message)
  }

  /** The error contains the message, in whatever case. */
  predicate Mentions(error: string, message: string)
  {
    exists i | 0 <= i <= |error| :: StandsAt(message, error, i)
  }

  /** None of the failures that no retry can repair. */
  predicate Transient(error: string)
  {
    && !Mentions(error, "invalid mint")
    && !Mentions(error, "insufficient funds")
    && !Mentions(error, "insufficient lamports")
    && !Mentions(error, "already processed")
  }

  predicate IsLower(s: string)
  {
    forall i | 0 <= i < |s| :: !('A' <= s[i] <= 'Z')
  }

  lemma LowerSame(x: char, y: char)
    requires !('A' <= y <= 'Z')
    ensures SameLetter(x, y) <==> (if 'A' <= x <= 'Z' then x + 32 as char else x) == y
  {
  }

  lemma LowerAt(error: string, message: string, i: nat)
    requires IsLower(message) && i <= |error|
    ensures message <= Lower(error)[i..] <==> StandsAt(message, error, i)
  {
    var lower, n := Lower(error), |message|;
    if i + n <= |error| {
      forall j | 0 <= j < n
        ensures SameLetter(error[i..i + n][j], message[j]) <==> lower[i..][j] == message[j]
      {
        LowerSame(error[i + j], message[j]);
      }
    }
  }

  lemma ContainsIsMentions(error: string, message: string)
    requires IsLower(message)
    ensures Contains(Lower(error), message) <==> Mentions(error, message)
  {
    forall i | 0 <= i <= |error|
      ensures message <= Lower(error)[i..] <==> StandsAt(message, error, i)
    {
      LowerAt(error, message, i);
    }
  }

  lemma MessagesLower()
    ensures IsLower("invalid mint") && IsLower("insufficient funds") && IsLower("insufficient lamports") && IsLower("already processed")
  {
  }

  /** Exactly the errors that contain none of the four messages, in whatever case, are retried. */
  lemma RetriableExact(error: string)
    ensures IsRetriable(error) <==> Transient(error)
  {
    MessagesLower();
    ContainsIsMentions(error, "invalid mint");
    ContainsIsMentions(error, "insufficient funds");
    ContainsIsMentions(error, "insufficient lamports");
    ContainsIsMentions(error, "already processed");
  }

  /** Whatever stands around one of the four messages, and whatever its case, the error is not retried. */
  lemma NeverRetried(before: string, text: string, after: string, message: string)
    requires message in {"invalid mint", "insufficient funds", "insufficient lamports", "already processed"}
    requires SameText(text, message)
    ensures !IsRetriable(before + text + after)
  {
    var error, i := before + text + after, |before|;
    assert error[i..i + |message|] == text;
    assert StandsAt(message, error, i);
    assert Mentions(error, message);
    RetriableExact(error);
  }

  /** The delay before the (r+1)-th retry; the power is taken in 32 bits. */
  function Backoff(cfg: Config, r: nat): nat
  {
    cfg.retryDelay * (Pow2(r) % 0x1_0000_0000)
  }

  // ---- The steps ----

  function Running(s: State): set<nat>
  {
    set t | t in s.tasks && s.tasks[t].pc != Stuck
  }

  predicate AtPc(s: State, t: nat, pc: Pc)
  {
    t in s.tasks && s.tasks[t].pc == pc
  }

  predicate Enabled(cfg: Config, s: State, step: Step)
  {
    match step
    // The decision engine lets no order of amount zero through.
    case Submit(id, amount) => id !in s.submitted && 0 < amount && |s.pending| < cfg.maxPending
    case Take => s.queue != [] && |Running(s)| < cfg.permits
    case Insert(t) => AtPc(s, t, Taken)
    case RejectMint(t) => AtPc(s, t, Inserted)
    case Snapshot(t) => AtPc(s, t, Inserted)
    case Decide(t, pass) => AtPc(s, t, Snapped)
    case Succeed(t) => AtPc(s, t, Executing)
    case Fail(t, error) => AtPc(s, t, Executing)
    case Requeue(t) => AtPc(s, t, BackingOff)
    case Remove(t) => AtPc(s, t, Sent)
    case Finalize(t, written) => t in s.tasks && s.tasks[t].pc.Closing?
    case Cancel(id) => true
  }

  function Amounts(active: map<Id, Order>): map<Id, nat>
  {
    map id | id in active :: active[id].amount
  }

  /** Steps inside a task: they move its program point and touch no queue, map or other task. */
  predicate IsInner(step: Step)
  {
    step.RejectMint? || step.Snapshot? || step.Decide? || step.Succeed? || step.Fail? ||
    (step.Finalize? && !step.written)
  }

  /** What such a step makes of the task, given the total of the active map and the next stamp. */
  function NextTask(cfg: Config, me: Task, step: Step, total: nat, stamp: nat): Task
  {
    match step
    case RejectMint(_) => me.(pc := Closing(Failed))
    case Snapshot(_) => me.(pc := Snapped, exposure := SatSub(total, me.order.amount), stamp := stamp)
    case Decide(_, pass) =>
      if pass && me.exposure + me.order.amount <= cfg.portfolio then me.(pc := Executing, admitted := true)
      else me.(pc := Closing(Failed))
    case Succeed(_) => me.(pc := Closing(Executed))
    case Fail(_, error) =>
      if me.order.retries < cfg.maxRetries && IsRetriable(error) then me.(pc := BackingOff) else me.(pc := Closing(Failed))
    case _ => me.(pc := Stuck)
  }

  function AfterInner(cfg: Config, s: State, step: Step): State
    requires IsInner(step) && step.t in s.tasks
  {
    var me := s.tasks[step.t];
    var next := NextTask(cfg, me, step, Total(Amounts(s.active)), s.clock);
    s.(tasks := s.tasks[step.t := next],
       clock := if step.Snapshot? then s.clock + 1 else s.clock,
       runs := if next.pc == Executing then s.runs[me.order.id := Get(s.runs, me.order.id) + 1] else s.runs)
  }

  function Apply(cfg: Config, s: State, step: Step): State
  {
    if !Enabled(cfg, s, step) then s
    else if IsInner(step) then AfterInner(cfg, s, step)
    else match step
    case Submit(id, amount) =>
      s.(queue := s.queue + [Order(id, amount, 0)], pending := s.pending + [id],
         submitted := s.submitted[id := amount], runs := s.runs[id := 0], slept := s.slept[id := 0])
    case Take =>
      s.(queue := s.queue[1..], nextTask := s.nextTask + 1,
         tasks := s.tasks[s.nextTask := Task(s.queue[0], Taken, 0, 0, false)])
    case Insert(t) =>
      var me := s.tasks[t];
      s.(tasks := s.tasks[t := me.(pc := Inserted)], active := s.active[me.order.id := me.order])
    case Requeue(t) =>
      var me := s.tasks[t];
      var o := me.order;
      s.(tasks := s.tasks[t := me.(pc := Sent)], queue := s.queue + [o.(retries := o.retries + 1)],
         slept := s.slept[o.id := Get(s.slept, o.id) + Backoff(cfg, o.retries)])
    case Remove(t) =>
      s.(tasks := s.tasks - {t}, active := s.active - {s.tasks[t].order.id})
    case Finalize(t, _) =>
      var me := s.tasks[t];
      s.(tasks := s.tasks - {t}, active := s.active - {me.order.id},
         history := s.history[me.order.id := Closed(me.order, me.pc.outcome)])
    case Cancel(id) =>
      s.(active := s.active - {id}, pending := Without(s.pending, id))
  }

  function Without(ids: seq<Id>, id: Id): (left: seq<Id>)
    ensures |left| <= |ids|
  {
    if ids == [] then [] else (if ids[0] == id then [] else [ids[0]]) + Without(ids[1..], id)
  }

  /** The task has entered the active map, and its order is past the gate or may still pass it. */
  predicate Live(cfg: Config, me: Task)
  {
    me.admitted || (me.pc == Inserted && me.order.amount <= cfg.portfolio) ||
    (me.pc == Snapped && me.exposure + me.order.amount <= cfg.portfolio)
  }

  /** No order of a live task is cancelled while active, and a retried order re-enters the active map only after its
      previous task left it. */
  predicate Orderly(cfg: Config, s: State, step: Step)
  {
    && (step.Cancel? && step.id in s.active ==> forall t | t in s.tasks && s.tasks[t].order.id == step.id :: !Live(cfg, s.tasks[t]))
    && (step.Insert? && step.t in s.tasks ==> s.tasks[step.t].order.id !in s.active)
  }

  function Schedules(cfg: Config): Machine<State, Step>
  {
    Machine((s: State, step: Step) => Enabled(cfg, s, step), (s: State, step: Step) => Apply(cfg, s, step))
  }

  function OrderlySchedules(cfg: Config): Machine<State, Step>
  {
    Machine((s: State, step: Step) => Enabled(cfg, s, step) && Orderly(cfg, s, step), (s: State, step: Step) => Apply(cfg, s, step))
  }
}

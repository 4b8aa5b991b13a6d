/** How often an order executes, how long it waits, and why the pipeline drains. */
module Retries {
  import opened Basics
  import opened Runs
  import opened Totals
  import opened OrderPipeline
  import Custody

  // ---- Backoff ----

  function SleepTotal(cfg: Config, r: nat): nat
  {
    if r == 0 then 0 else SleepTotal(cfg, r - 1) + Backoff(cfg, r - 1)
  }

  lemma {:induction false} Pow2Add(a: nat, b: nat)
    ensures Pow2(a + b) == Pow2(a) * Pow2(b)
  {
    if b == 0 {
    } else {
      Pow2Add(a, b - 1);
      assert Pow2(a) * (2 * Pow2(b - 1)) == 2 * (Pow2(a) * Pow2(b - 1));
    }
  }

  lemma Pow2At32()
    ensures Pow2(32) == 0x1_0000_0000
  {
    Pow2Add(2, 2);
    Pow2Add(4, 4);
    Pow2Add(8, 8);
    Pow2Add(16, 16);
  }

  /** The 32-bit power is exact below exponent 32 and zero from there on. */
  lemma PowerWraps(r: nat)
    ensures Pow2(r) % 0x1_0000_0000 == if r < 32 then Pow2(r) else 0
  {
    Pow2At32();
    if r < 32 {
      Pow2Add(r, 32 - r);
      PowPositive(32 - r);
      PowPositive(r);
      Bigger(Pow2(r), Pow2(32 - r));
    } else {
      Pow2Add(32, r - 32);
      MultipleOf(Pow2(r - 32));
    }
  }

  lemma {:induction false} PowPositive(n: nat)
    ensures 1 <= Pow2(n) && (1 <= n ==> 2 <= Pow2(n))
  {
    if n == 0 {
    } else {
      PowPositive(n - 1);
    }
  }

  lemma Bigger(a: nat, b: nat)
    requires 1 <= a && 2 <= b
    ensures a < a * b
  {
  }

  lemma MultipleOf(k: nat)
    ensures (0x1_0000_0000 * k) % 0x1_0000_0000 == 0
  {
  }

  /** r retries wait retryDelay * (2^r - 1) in all; beyond 32 retries the delay is zero. */
  lemma {:induction false} SleepClosedForm(cfg: Config, r: nat)
    ensures SleepTotal(cfg, r) == cfg.retryDelay * (Pow2(if r < 32 then r else 32) - 1)
  {
    if r == 0 {
    } else {
      SleepClosedForm(cfg, r - 1);
      BackoffValue(cfg, r - 1);
      if r <= 32 {
        Doubling(cfg.retryDelay, Pow2(r - 1));
      }
    }
  }

  lemma BackoffValue(cfg: Config, r: nat)
    ensures Backoff(cfg, r) == if r < 32 then cfg.retryDelay * Pow2(r) else 0
  {
    PowerWraps(r);
  }

  lemma Doubling(d: int, p: int)
    ensures d * (p - 1) + d * p == d * (2 * p - 1)
  {
  }

  // ---- Accounts ----

  /** An order waiting for its next attempt has executed once per retry. */
  predicate OrderOk(cfg: Config, s: State, o: Order)
  {
    o.retries <= cfg.maxRetries && Get(s.runs, o.id) == o.retries && Get(s.slept, o.id) == SleepTotal(cfg, o.retries)
  }

  predicate TaskOk(cfg: Config, s: State, me: Task)
  {
    && (me.pc == Taken || me.pc == Inserted || me.pc == Snapped ==> !me.admitted)
    && (me.pc == Executing || me.pc == BackingOff ==> me.admitted)
    && (me.pc == BackingOff ==> me.order.retries < cfg.maxRetries)
    && (me.pc != Sent ==>
          && me.order.retries <= cfg.maxRetries
          && Get(s.runs, me.order.id) == me.order.retries + (if me.admitted then 1 else 0)
          && Get(s.slept, me.order.id) == SleepTotal(cfg, me.order.retries))
  }

  predicate ClosedOk(cfg: Config, s: State, id: Id, o: Order)
  {
    o.retries <= cfg.maxRetries && o.retries <= Get(s.runs, id) <= o.retries + 1 &&
    Get(s.slept, id) == SleepTotal(cfg, o.retries)
  }

  ghost predicate Accounts(cfg: Config, s: State)
  {
    && (forall i | 0 <= i < |s.queue| :: OrderOk(cfg, s, s.queue[i]))
    && (forall t | t in s.tasks :: TaskOk(cfg, s, s.tasks[t]))
    && (forall id | id in s.history :: ClosedOk(cfg, s, id, s.history[id].order))
  }

  ghost predicate Inv(cfg: Config, s: State)
  {
    Custody.Inv(s) && Accounts(cfg, s)
  }

  /** The accounts of all orders but `id` are unchanged. */
  ghost predicate AccountsOf(s: State, r: State, id: Id)
  {
    forall x | x != id :: Get(r.runs, x) == Get(s.runs, x) && Get(r.slept, x) == Get(s.slept, x)
  }

  predicate Books(step: Step)
  {
    step.Submit? || step.Requeue? || step.Decide?
  }

  lemma AccountsKept(cfg: Config, s: State, step: Step)
    requires Custody.Sole(s) && Custody.HistoryFinal(s) && Custody.Known(s) && Accounts(cfg, s) && Enabled(cfg, s, step)
    ensures Accounts(cfg, Apply(cfg, s, step))
  {
    match step
    case Submit(id, amount) => SubmitAccounts(cfg, s, id, amount);
    case Requeue(t) =>
      Alone(s, t);
      RequeueAccounts(cfg, s, t);
    case Decide(t, pass) =>
      Alone(s, t);
      DecideAccounts(cfg, s, t, pass);
    case _ => PassAccounts(cfg, s, step);
  }

  lemma PassAccounts(cfg: Config, s: State, step: Step)
    requires Accounts(cfg, s) && Enabled(cfg, s, step) && !Books(step)
    ensures Accounts(cfg, Apply(cfg, s, step))
  {
    var r := Apply(cfg, s, step);
    match step
    case Take => TakeAccounts(cfg, s);
    case Insert(t) => InsertAccounts(cfg, s, t);
    case Remove(t) => RemoveAccounts(cfg, s, t);
    case Finalize(t, true) => CloseAccounts(cfg, s, t);
    case Cancel(id) =>
      Custody.CancelStrikes(cfg, s, id);
      Passed(cfg, s, r);
    case _ =>
      Custody.InnerSteps(cfg, s, step);
      InnerAccounts(cfg, s, step);
      Passed(cfg, s, r);
  }

  lemma InsertAccounts(cfg: Config, s: State, t: nat)
    requires Accounts(cfg, s) && Enabled(cfg, s, Insert(t))
    ensures Accounts(cfg, Apply(cfg, s, Insert(t)))
  {
    assert TaskOk(cfg, s, s.tasks[t]);
    Passed(cfg, s, Apply(cfg, s, Insert(t)));
  }

  lemma RemoveAccounts(cfg: Config, s: State, t: nat)
    requires Accounts(cfg, s) && Enabled(cfg, s, Remove(t))
    ensures Accounts(cfg, Apply(cfg, s, Remove(t)))
  {
    Passed(cfg, s, Apply(cfg, s, Remove(t)));
  }

  lemma CloseAccounts(cfg: Config, s: State, t: nat)
    requires Accounts(cfg, s) && Enabled(cfg, s, Finalize(t, true))
    ensures Accounts(cfg, Apply(cfg, s, Finalize(t, true)))
  {
    assert TaskOk(cfg, s, s.tasks[t]);
    Passed(cfg, s, Apply(cfg, s, Finalize(t, true)));
  }

  lemma TakeAccounts(cfg: Config, s: State)
    requires Accounts(cfg, s) && Enabled(cfg, s, Take)
    ensures Accounts(cfg, Apply(cfg, s, Take))
  {
    var r := Apply(cfg, s, Take);
    assert forall i | 0 <= i < |r.queue| :: r.queue[i] == s.queue[i + 1];
    assert OrderOk(cfg, s, s.queue[0]);
    Passed(cfg, s, r);
  }

  /** Nothing is booked: orders are only passed on. */
  lemma Passed(cfg: Config, s: State, r: State)
    requires Accounts(cfg, s) && r.runs == s.runs && r.slept == s.slept
    requires forall i | 0 <= i < |r.queue| :: OrderOk(cfg, s, r.queue[i])
    requires forall t | t in r.tasks :: (t in s.tasks && r.tasks[t] == s.tasks[t]) || TaskOk(cfg, s, r.tasks[t])
    requires forall id | id in r.history ::
               (id in s.history && r.history[id] == s.history[id]) || ClosedOk(cfg, s, id, r.history[id].order)
    ensures Accounts(cfg, r)
  {
    assert forall o :: OrderOk(cfg, s, o) ==> OrderOk(cfg, r, o);
    assert forall me :: TaskOk(cfg, s, me) ==> TaskOk(cfg, r, me);
    assert forall id, o :: ClosedOk(cfg, s, id, o) ==> ClosedOk(cfg, r, id, o);
  }

  lemma InnerAccounts(cfg: Config, s: State, step: Step)
    requires Accounts(cfg, s) && Enabled(cfg, s, step) && IsInner(step) && !step.Decide?
    ensures var r := Apply(cfg, s, step);
            r.runs == s.runs && r.slept == s.slept && step.t in r.tasks && TaskOk(cfg, s, r.tasks[step.t])
  {
    assert TaskOk(cfg, s, s.tasks[step.t]);
  }

  lemma SubmitAccounts(cfg: Config, s: State, id: Id, amount: nat)
    requires Accounts(cfg, s) && Custody.Known(s) && Enabled(cfg, s, Submit(id, amount))
    ensures Accounts(cfg, Apply(cfg, s, Submit(id, amount)))
  {
    var r := Apply(cfg, s, Submit(id, amount));
    Unheard(s, id);
    OthersUnbooked(cfg, s, r, id);
    forall i | 0 <= i < |r.queue|
      ensures OrderOk(cfg, r, r.queue[i])
    {
      if i < |s.queue| {
        assert r.queue[i] == s.queue[i];
      }
    }
  }

  /** An id not submitted yet occurs nowhere. */
  lemma Unheard(s: State, id: Id)
    requires Custody.Known(s) && id !in s.submitted
    ensures forall i | 0 <= i < |s.queue| :: s.queue[i].id != id
    ensures forall t | t in s.tasks :: s.tasks[t].order.id != id
    ensures id !in s.history
  {
    assert forall i | 0 <= i < |s.queue| :: Custody.IsSubmitted(s, s.queue[i]);
    assert forall t | t in s.tasks :: Custody.IsSubmitted(s, s.tasks[t].order);
    assert forall x | x in s.history :: Custody.IsSubmitted(s, s.history[x].order);
  }

  /** Booking on `id` leaves the accounts of all other orders right. */
  lemma OthersUnbooked(cfg: Config, s: State, r: State, id: Id)
    requires Accounts(cfg, s) && AccountsOf(s, r, id)
    ensures forall o | OrderOk(cfg, s, o) && o.id != id :: OrderOk(cfg, r, o)
    ensures forall me | TaskOk(cfg, s, me) && (me.order.id != id || me.pc == Sent) :: TaskOk(cfg, r, me)
    ensures forall x, o | ClosedOk(cfg, s, x, o) && x != id :: ClosedOk(cfg, r, x, o)
  {
  }

  /** A task holding an order before it was sent back holds it alone, but for tasks that have sent it back. */
  lemma Alone(s: State, t: nat)
    requires Custody.Sole(s) && Custody.HistoryFinal(s) && t in s.tasks && s.tasks[t].pc != Sent && s.tasks[t].pc != Taken
    ensures HoldsAlone(s, t)
  {
  }

  /** Nobody else holds the order of task t, though tasks that sent it back may still be there. */
  ghost predicate HoldsAlone(s: State, t: nat)
  {
    && t in s.tasks
    && (forall u | u in s.tasks && u != t && s.tasks[u].order.id == s.tasks[t].order.id :: s.tasks[u].pc == Sent)
    && (forall i | 0 <= i < |s.queue| :: s.queue[i].id != s.tasks[t].order.id)
    && s.tasks[t].order.id !in s.history
  }

  lemma RequeueAccounts(cfg: Config, s: State, t: nat)
    requires Accounts(cfg, s) && HoldsAlone(s, t) && Enabled(cfg, s, Requeue(t))
    ensures Accounts(cfg, Apply(cfg, s, Requeue(t)))
  {
    var r := Apply(cfg, s, Requeue(t));
    assert TaskOk(cfg, s, s.tasks[t]);
    OthersUnbooked(cfg, s, r, s.tasks[t].order.id);
    forall i | 0 <= i < |r.queue|
      ensures OrderOk(cfg, r, r.queue[i])
    {
      if i < |s.queue| {
        assert r.queue[i] == s.queue[i];
      }
    }
  }

  lemma DecideAccounts(cfg: Config, s: State, t: nat, pass: bool)
    requires Accounts(cfg, s) && HoldsAlone(s, t) && Enabled(cfg, s, Decide(t, pass))
    ensures Accounts(cfg, Apply(cfg, s, Decide(t, pass)))
  {
    var r := Apply(cfg, s, Decide(t, pass));
    assert TaskOk(cfg, s, s.tasks[t]);
    OthersUnbooked(cfg, s, r, s.tasks[t].order.id);
    assert r.tasks == s.tasks[t := r.tasks[t]] && r.queue == s.queue && r.history == s.history;
    assert TaskOk(cfg, r, r.tasks[t]);
  }

  lemma Reachable(cfg: Config, steps: seq<Step>)
    requires Valid(Schedules(cfg), EMPTY, steps)
    ensures Inv(cfg, Final(Schedules(cfg), EMPTY, steps))
  {
    var m := Schedules(cfg);
    forall s, l | Inv(cfg, s) && m.enabled(s, l)
      ensures Inv(cfg, m.apply(s, l))
    {
      Custody.StepKeeps(cfg, s, l);
      AccountsKept(cfg, s, l);
    }
    Preserved(m, (s: State) => Inv(cfg, s), EMPTY, steps);
  }

  /** In every schedule an order starts executing at most maxRetries + 1 times. */
  lemma AttemptsBounded(cfg: Config, steps: seq<Step>, id: Id)
    requires Valid(Schedules(cfg), EMPTY, steps)
    requires id in Final(Schedules(cfg), EMPTY, steps).submitted
    ensures Get(Final(Schedules(cfg), EMPTY, steps).runs, id) <= cfg.maxRetries + 1
  {
    Reachable(cfg, steps);
    var s := Final(Schedules(cfg), EMPTY, steps);
    if Custody.InQueue(s, id) {
      var i :| 0 <= i < |s.queue| && s.queue[i].id == id;
      assert OrderOk(cfg, s, s.queue[i]);
    } else if Custody.WithTask(s, id) {
      var t :| t in s.tasks && s.tasks[t].order.id == id && s.tasks[t].pc != Sent;
      assert TaskOk(cfg, s, s.tasks[t]);
    } else {
      assert ClosedOk(cfg, s, id, s.history[id].order);
    }
  }

  /** A closed order with r retries executed r or r + 1 times and waited retryDelay * (2^r - 1). */
  lemma ClosedAccount(cfg: Config, steps: seq<Step>, id: Id)
    requires Valid(Schedules(cfg), EMPTY, steps)
    requires id in Final(Schedules(cfg), EMPTY, steps).history
    ensures var s := Final(Schedules(cfg), EMPTY, steps);
            var r := s.history[id].order.retries;
            && r <= cfg.maxRetries && r <= Get(s.runs, id) <= r + 1
            && Get(s.slept, id) == cfg.retryDelay * (Pow2(if r < 32 then r else 32) - 1)
  {
    Reachable(cfg, steps);
    var s := Final(Schedules(cfg), EMPTY, steps);
    assert ClosedOk(cfg, s, id, s.history[id].order);
    SleepClosedForm(cfg, s.history[id].order.retries);
  }
}

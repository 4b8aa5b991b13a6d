/** When a cancellation or an early re-entry lets the orders past the gate exceed the limit. */
module LimitBreaks {
  import opened Basics
  import opened Runs
  import opened Totals
  import opened OrderPipeline
  import opened Exposure
  import Custody
  import OrderlyCustody

  /** Room for one more order: in the pending list, and a permit beyond those the queue will take. */
  predicate Room(cfg: Config, s: State)
  {
    |s.pending| < cfg.maxPending && |Running(s)| + |s.queue| < cfg.permits
  }

  // ---- Filling what the active map leaves of the limit ----

  /** Task numbers n, n + 1, ... hold the given orders, just taken. */
  predicate HoldTaken(tasks: map<nat, Task>, n: nat, orders: seq<Order>)
  {
    forall t | n <= t < n + |orders| :: t in tasks && tasks[t] == Task(orders[t - n], Taken, 0, 0, false)
  }

  /** With a permit for each queued order, all of them can be taken. */
  lemma {:induction false} TakeAll(cfg: Config, s: State) returns (steps: seq<Step>)
    requires Custody.TasksNumbered(s) && |Running(s)| + |s.queue| <= cfg.permits
    ensures Valid(OrderlySchedules(cfg), s, steps)
    ensures var r := Final(OrderlySchedules(cfg), s, steps);
            && r == s.(queue := [], tasks := r.tasks, nextTask := s.nextTask + |s.queue|)
            && HoldTaken(r.tasks, s.nextTask, s.queue)
            && (forall t | t in s.tasks :: t in r.tasks && r.tasks[t] == s.tasks[t])
            && (forall t | t in r.tasks && t !in s.tasks :: s.nextTask <= t < s.nextTask + |s.queue|)
    decreases |s.queue|
  {
    var m := OrderlySchedules(cfg);
    if s.queue == [] {
      steps := [];
    } else {
      steps := TakeOne(cfg, s);
      var r := Final(m, s, steps);
      var more := TakeAll(cfg, r);
      Concat(m, s, steps, more);
      steps := steps + more;
      TakenFirst(s, r, Final(m, r, more));
    }
  }

  lemma OneMoreRuns(s: State, r: State)
    requires Custody.TasksNumbered(s) && s.queue != []
    requires r.tasks == s.tasks[s.nextTask := Task(s.queue[0], Taken, 0, 0, false)] && r.nextTask == s.nextTask + 1
    ensures |Running(r)| == |Running(s)| + 1 && Custody.TasksNumbered(r)
  {
    assert Running(r) == Running(s) + {s.nextTask};
  }

  lemma TakeOne(cfg: Config, s: State) returns (steps: seq<Step>)
    requires Custody.TasksNumbered(s) && |Running(s)| + |s.queue| <= cfg.permits && s.queue != []
    ensures Valid(OrderlySchedules(cfg), s, steps)
    ensures var r := Final(OrderlySchedules(cfg), s, steps);
            && r == s.(queue := s.queue[1..], nextTask := s.nextTask + 1,
                       tasks := s.tasks[s.nextTask := Task(s.queue[0], Taken, 0, 0, false)])
            && |Running(r)| == |Running(s)| + 1 && Custody.TasksNumbered(r)
  {
    steps := Advance(OrderlySchedules(cfg), s, [], Take);
    OneMoreRuns(s, Final(OrderlySchedules(cfg), s, steps));
  }

  lemma TakenFirst(s: State, r: State, e: State)
    requires Custody.TasksNumbered(s) && s.queue != []
    requires r.tasks == s.tasks[s.nextTask := Task(s.queue[0], Taken, 0, 0, false)]
    requires HoldTaken(e.tasks, s.nextTask + 1, s.queue[1..])
    requires forall t | t in r.tasks :: t in e.tasks && e.tasks[t] == r.tasks[t]
    requires forall t | t in e.tasks && t !in r.tasks :: s.nextTask + 1 <= t < s.nextTask + |s.queue|
    ensures HoldTaken(e.tasks, s.nextTask, s.queue)
    ensures forall t | t in s.tasks :: t in e.tasks && e.tasks[t] == s.tasks[t]
    ensures forall t | t in e.tasks && t !in s.tasks :: s.nextTask <= t < s.nextTask + |s.queue|
  {
    forall t | s.nextTask <= t < s.nextTask + |s.queue|
      ensures t in e.tasks && e.tasks[t] == Task(s.queue[t - s.nextTask], Taken, 0, 0, false)
    {
      if s.nextTask < t {
        assert s.queue[t - s.nextTask] == s.queue[1..][t - (s.nextTask + 1)];
      }
    }
  }

  /** Task n, just taken, passes the gate with what is left of the limit. */
  lemma Admit(cfg: Config, s: State, n: nat) returns (steps: seq<Step>)
    requires AtPc(s, n, Taken) && !s.tasks[n].admitted && s.tasks[n].order.id !in s.active
    requires Total(Amounts(s.active)) + s.tasks[n].order.amount <= cfg.portfolio
    ensures Valid(OrderlySchedules(cfg), s, steps)
    ensures var r, o := Final(OrderlySchedules(cfg), s, steps), s.tasks[n].order;
            && AtPc(r, n, Executing) && r.tasks[n].admitted && r.tasks[n].order == o && r.tasks == s.tasks[n := r.tasks[n]]
            && r.active == s.active[o.id := o] && r.queue == s.queue && r.pending == s.pending && r.submitted == s.submitted
            && r.nextTask == s.nextTask
  {
    var m, o := OrderlySchedules(cfg), s.tasks[n].order;
    steps := Advance(m, s, [], Insert(n));
    TotalAdd(Amounts(s.active), o.id, o.amount);
    assert Amounts(s.active[o.id := o]) == Amounts(s.active)[o.id := o.amount];
    var more := PassGate(cfg, Final(m, s, steps), n);
    Concat(m, s, steps, more);
    steps := steps + more;
  }

  /** An inserted order passes the gate when it fits beside the rest of the active map. */
  lemma PassGate(cfg: Config, s: State, n: nat) returns (steps: seq<Step>)
    requires AtPc(s, n, Inserted)
    requires SatSub(Total(Amounts(s.active)), s.tasks[n].order.amount) + s.tasks[n].order.amount <= cfg.portfolio
    ensures Valid(OrderlySchedules(cfg), s, steps)
    ensures var r := Final(OrderlySchedules(cfg), s, steps);
            && AtPc(r, n, Executing) && r.tasks[n].admitted && r.tasks[n].order == s.tasks[n].order
            && r.tasks == s.tasks[n := r.tasks[n]] && r.nextTask == s.nextTask
            && r.active == s.active && r.queue == s.queue && r.pending == s.pending && r.submitted == s.submitted
  {
    steps := Advance(OrderlySchedules(cfg), s, [], Snapshot(n));
    steps := Advance(OrderlySchedules(cfg), s, steps, Decide(n, true));
  }

  /** One more task executes the given order. */
  predicate Joined(s: State, r: State, o: Order)
  {
    && r.tasks.Keys == s.tasks.Keys + {s.nextTask} && r.nextTask == s.nextTask + 1
    && AtPc(r, s.nextTask, Executing) && r.tasks[s.nextTask].admitted && r.tasks[s.nextTask].order == o
  }

  /** A new order can always take up all that the active map leaves of the limit. */
  lemma Overfill(cfg: Config, s: State, id: Id, a: nat) returns (steps: seq<Step>)
    requires Custody.TasksNumbered(s) && id !in s.submitted && id !in s.active
    requires Room(cfg, s) && 0 < a && Total(Amounts(s.active)) + a == cfg.portfolio
    ensures Valid(OrderlySchedules(cfg), s, steps)
    ensures var r := Final(OrderlySchedules(cfg), s, steps);
            && Total(Admitted(r)) == Total(Admitted(s)) + a
            && r.active == s.active[id := Order(id, a, 0)] && r.queue == [] && r.pending == s.pending + [id]
            && (s.queue == [] ==> Joined(s, r, Order(id, a, 0)))
  {
    var m := OrderlySchedules(cfg);
    steps := SubmitNew(cfg, s, id, a);
    var more := FillFrom(cfg, s, Final(m, s, steps), id, a);
    Concat(m, s, steps, more);
    steps := steps + more;
  }

  lemma FillFrom(cfg: Config, s: State, q: State, id: Id, a: nat) returns (steps: seq<Step>)
    requires Custody.TasksNumbered(q) && |Running(q)| + |q.queue| <= cfg.permits && id !in s.active
    requires q.queue == s.queue + [Order(id, a, 0)] && q.pending == s.pending + [id]
    requires q.tasks == s.tasks && q.active == s.active && q.nextTask == s.nextTask && Total(Amounts(s.active)) + a == cfg.portfolio
    ensures Valid(OrderlySchedules(cfg), q, steps)
    ensures var r := Final(OrderlySchedules(cfg), q, steps);
            && Total(Admitted(r)) == Total(Admitted(s)) + a
            && r.active == s.active[id := Order(id, a, 0)] && r.queue == [] && r.pending == s.pending + [id]
            && (s.queue == [] ==> Joined(s, r, Order(id, a, 0)))
  {
    steps := FillUp(cfg, q, s.queue, Order(id, a, 0));
    assert Admitted(q) == Admitted(s);
  }

  lemma SubmitNew(cfg: Config, s: State, id: Id, amount: nat) returns (steps: seq<Step>)
    requires Custody.TasksNumbered(s) && id !in s.submitted && 0 < amount && Room(cfg, s)
    ensures Valid(OrderlySchedules(cfg), s, steps)
    ensures var q := Final(OrderlySchedules(cfg), s, steps);
            && Custody.TasksNumbered(q) && |Running(q)| + |q.queue| <= cfg.permits
            && q.queue == s.queue + [Order(id, amount, 0)] && q.pending == s.pending + [id]
            && q.tasks == s.tasks && q.active == s.active && q.nextTask == s.nextTask
  {
    steps := Advance(OrderlySchedules(cfg), s, [], Submit(id, amount));
    assert Running(Final(OrderlySchedules(cfg), s, steps)) == Running(s);
  }

  /** The last of the queued orders is taken and admitted, the others only taken. */
  lemma FillUp(cfg: Config, s: State, others: seq<Order>, o: Order) returns (steps: seq<Step>)
    requires Custody.TasksNumbered(s) && s.queue == others + [o] && o.id !in s.active && |Running(s)| + |s.queue| <= cfg.permits
    requires Total(Amounts(s.active)) + o.amount <= cfg.portfolio
    ensures Valid(OrderlySchedules(cfg), s, steps)
    ensures var r := Final(OrderlySchedules(cfg), s, steps);
            && Total(Admitted(r)) == Total(Admitted(s)) + o.amount
            && r.active == s.active[o.id := o] && r.queue == [] && r.pending == s.pending
            && (others == [] ==> Joined(s, r, o))
  {
    var m, n := OrderlySchedules(cfg), s.nextTask + |others|;
    steps := TakeAll(cfg, s);
    var q := Final(m, s, steps);
    assert q.tasks[n].order == s.queue[|others|] == o;
    var last := Admit(cfg, q, n);
    OnlyTakenCameIn(s, q, Final(m, q, last), n);
    AdmittedOneMore(s, Final(m, q, last), n, o.amount);
    Concat(m, s, steps, last);
    steps := steps + last;
  }

  lemma OnlyTakenCameIn(s: State, q: State, r: State, n: nat)
    requires HoldTaken(q.tasks, s.nextTask, s.queue) && n !in s.tasks && n in q.tasks && n in r.tasks && r.tasks == q.tasks[n := r.tasks[n]]
    requires forall t | t in s.tasks :: t in q.tasks && q.tasks[t] == s.tasks[t]
    requires forall t | t in q.tasks && t !in s.tasks :: s.nextTask <= t < s.nextTask + |s.queue|
    ensures forall t | t in s.tasks :: t in r.tasks && r.tasks[t] == s.tasks[t]
    ensures forall t | t in r.tasks && t !in s.tasks && t != n :: !r.tasks[t].admitted
    ensures |s.queue| == 1 ==> r.tasks.Keys <= s.tasks.Keys + {s.nextTask, n}
  {
  }

  /** Of the tasks that came in only n is past the gate. */
  lemma AdmittedOneMore(s: State, r: State, n: nat, a: nat)
    requires n !in s.tasks && n in r.tasks && r.tasks[n].admitted && r.tasks[n].order.amount == a
    requires forall t | t in s.tasks :: t in r.tasks && r.tasks[t] == s.tasks[t]
    requires forall t | t in r.tasks && t !in s.tasks && t != n :: !r.tasks[t].admitted
    ensures Total(Admitted(r)) == Total(Admitted(s)) + a
  {
    TotalAdd(Admitted(s), n, a);
    assert Admitted(r) == Admitted(s)[n := a];
  }

  // ---- Letting the others out ----

  /** Tasks other than t that entered the active map and are not past the gate. */
  function Waiting(s: State, t: nat): set<nat>
  {
    set u | u in s.tasks && u != t && s.tasks[u].pc != Taken && !s.tasks[u].admitted
  }

  /** Orders stuck in the active map without having passed the gate hold back part of the limit for good. */
  predicate NoneStuck(s: State)
  {
    forall u | u in s.tasks && s.tasks[u].pc == Stuck :: s.tasks[u].admitted
  }

  /** A task before the gate can fail and close. */
  lemma LetOut(cfg: Config, s: State, u: nat) returns (steps: seq<Step>)
    requires u in s.tasks && s.tasks[u].pc != Taken && !s.tasks[u].admitted && NoneStuck(s) && OrderlyCustody.GateOk(s.tasks[u])
    ensures Valid(OrderlySchedules(cfg), s, steps)
    ensures var r := Final(OrderlySchedules(cfg), s, steps);
            && r.tasks == s.tasks - {u} && r.active == s.active - {s.tasks[u].order.id} && r.queue == s.queue
            && r.pending == s.pending && r.submitted == s.submitted && r.nextTask == s.nextTask
  {
    var m := OrderlySchedules(cfg);
    steps := [];
    if s.tasks[u].pc == Inserted {
      steps := Advance(m, s, steps, RejectMint(u));
    } else if s.tasks[u].pc == Snapped {
      steps := Advance(m, s, steps, Decide(u, false));
    }
    var more := CloseOut(cfg, Final(m, s, steps), u);
    Concat(m, s, steps, more);
    steps := steps + more;
    assert s.tasks[u := Final(m, s, steps[..|steps| - 1]).tasks[u]] - {u} == s.tasks - {u};
  }

  lemma CloseOut(cfg: Config, s: State, u: nat) returns (steps: seq<Step>)
    requires u in s.tasks && s.tasks[u].pc.Closing?
    ensures Valid(OrderlySchedules(cfg), s, steps) && |steps| == 1
    ensures var r := Final(OrderlySchedules(cfg), s, steps);
            && r.tasks == s.tasks - {u} && r.active == s.active - {s.tasks[u].order.id} && r.queue == s.queue
            && r.pending == s.pending && r.submitted == s.submitted && r.nextTask == s.nextTask
  {
    steps := Advance(OrderlySchedules(cfg), s, [], Finalize(u, true));
  }

  /** Everybody but t who waits before the gate leaves. */
  lemma {:induction false} LetAllOut(cfg: Config, s: State, t: nat) returns (steps: seq<Step>)
    requires NoneStuck(s) && OrderlyCustody.Gates(s)
    ensures Valid(OrderlySchedules(cfg), s, steps)
    ensures Emptied(s, Final(OrderlySchedules(cfg), s, steps), t)
    decreases |Waiting(s, t)|
  {
    var m := OrderlySchedules(cfg);
    if Waiting(s, t) == {} {
      steps := [];
    } else {
      var u :| u in Waiting(s, t);
      assert OrderlyCustody.GateOk(s.tasks[u]);
      steps := LetOut(cfg, s, u);
      var r := Final(m, s, steps);
      assert Waiting(r, t) == Waiting(s, t) - {u};
      var more := LetAllOut(cfg, r, t);
      EmptiedOneMore(s, r, Final(m, r, more), t, u);
      Concat(m, s, steps, more);
      steps := steps + more;
    }
  }

  /** Only tasks not yet entered, past the gate, or t are left, and no entry of those that left. */
  ghost predicate Emptied(s: State, r: State, t: nat)
  {
    && r.queue == s.queue && r.pending == s.pending && r.submitted == s.submitted && r.nextTask == s.nextTask
    && (forall u :: u in r.tasks <==> u in s.tasks && u !in Waiting(s, t))
    && (forall u | u in r.tasks :: r.tasks[u] == s.tasks[u])
    && (forall id | id in r.active :: id in s.active && r.active[id] == s.active[id])
    && (forall u | u in Waiting(s, t) :: s.tasks[u].order.id !in r.active)
  }

  lemma EmptiedOneMore(s: State, r: State, e: State, t: nat, u: nat)
    requires u in Waiting(s, t) && r.tasks == s.tasks - {u} && r.active == s.active - {s.tasks[u].order.id}
    requires r.queue == s.queue && r.pending == s.pending && r.submitted == s.submitted && r.nextTask == s.nextTask
    requires Emptied(r, e, t)
    ensures Emptied(s, e, t)
  {
    assert forall v | v in Waiting(s, t) && v != u :: v in Waiting(r, t);
  }

  // ---- A live order without an entry ----

  /** Task t is live, its order has no active entry; otherwise the active map is as tasks hold it. */
  ghost predicate Lost(cfg: Config, s: State, t: nat)
  {
    && Custody.TasksNumbered(s) && Custody.ActiveEntered(s) && Custody.Known(s) && OrderlyCustody.Gates(s) && NoneStuck(s) && Room(cfg, s)
    && t in s.tasks && Live(cfg, s.tasks[t]) && s.tasks[t].order.id !in s.active
    && (forall u | u in s.tasks && Live(cfg, s.tasks[u]) && s.tasks[u].order.id in s.active ::
          s.active[s.tasks[u].order.id] == s.tasks[u].order)
  }

  lemma LostAmount(cfg: Config, s: State, t: nat)
    requires Lost(cfg, s, t)
    ensures 0 < s.tasks[t].order.amount
    ensures s.active.Keys <= s.submitted.Keys
  {
    assert Custody.IsSubmitted(s, s.tasks[t].order);
    ActiveSubmitted(s);
  }

  lemma ActiveSubmitted(s: State)
    requires Custody.ActiveEntered(s) && Custody.Known(s)
    ensures s.active.Keys <= s.submitted.Keys
  {
    forall id | id in s.active
      ensures id in s.submitted
    {
      assert Custody.IsSubmitted(s, s.tasks[HolderOf(s, id)].order);
    }
  }

  ghost function HolderOf(s: State, id: Id): (t: nat)
    requires Custody.ActiveEntered(s) && id in s.active
    ensures t in s.tasks && s.tasks[t].pc != Taken && s.tasks[t].order.id == id
  {
    assert Custody.Entered(s, id);
    var t :| t in s.tasks && s.tasks[t].pc != Taken && s.tasks[t].order.id == id;
    t
  }

  lemma HolderAdmitted(cfg: Config, s: State, r: State, t: nat, id: Id)
    requires Lost(cfg, s, t) && Emptied(s, r, t) && id in r.active
    ensures var u := HolderOf(s, id);
            u != t && u in r.tasks && r.tasks[u].admitted && r.tasks[u].order.amount == r.active[id].amount
  {
    assert HolderOf(s, id) !in Waiting(s, t);
  }

  /** With the others out, the active map is covered by the admitted orders, that of t aside. */
  lemma ActiveCovered(cfg: Config, s: State, r: State, t: nat)
    requires Lost(cfg, s, t) && Emptied(s, r, t)
    ensures Total(Amounts(r.active)) <= Total(Admitted(r) - {t})
  {
    var names := map id | id in r.active :: HolderOf(s, id);
    forall id | id in r.active
      ensures names[id] in Admitted(r) - {t} && Amounts(r.active)[id] == Admitted(r)[names[id]]
    {
      HolderAdmitted(cfg, s, r, t, id);
    }
    TotalInjective(Amounts(r.active), Admitted(r) - {t}, names);
  }

  /** Past the gate without an entry, with nobody else waiting: the limit is exceeded, or can be filled beyond it. */
  lemma AdmittedUnentered(cfg: Config, s: State, t: nat)
    requires Custody.TasksNumbered(s) && Room(cfg, s) && s.active.Keys <= s.submitted.Keys
    requires t in s.tasks && s.tasks[t].admitted && 0 < s.tasks[t].order.amount
    requires Total(Amounts(s.active)) <= Total(Admitted(s) - {t})
    ensures !StaysSafe(cfg, s)
  {
    TotalRemove(Admitted(s), t);
    if Total(Admitted(s)) <= cfg.portfolio {
      var x := Unused(s.submitted.Keys);
      var more := Overfill(cfg, s, x, cfg.portfolio - Total(Amounts(s.active)));
    } else {
      assert Final(OrderlySchedules(cfg), s, []) == s;
    }
  }

  lemma EmptiedRoom(cfg: Config, s: State, r: State, t: nat)
    requires Emptied(s, r, t) && Room(cfg, s) && Custody.TasksNumbered(s) && s.active.Keys <= s.submitted.Keys
    ensures Room(cfg, r) && Custody.TasksNumbered(r) && r.active.Keys <= r.submitted.Keys
  {
    assert Running(r) <= Running(s);
    Fewer(Running(r), Running(s));
  }

  lemma {:induction false} Fewer(a: set<nat>, b: set<nat>)
    requires a <= b
    ensures |a| <= |b|
  {
    if a == {} {
    } else {
      var x :| x in a;
      Fewer(a - {x}, b - {x});
    }
  }

  /** An admitted task whose order lost its entry. */
  lemma LostAdmitted(cfg: Config, s: State, t: nat)
    requires Lost(cfg, s, t) && s.tasks[t].admitted
    ensures !StaysSafe(cfg, s)
  {
    var steps := LetAllOut(cfg, s, t);
    var r := Final(OrderlySchedules(cfg), s, steps);
    LostAmount(cfg, s, t);
    EmptiedRoom(cfg, s, r, t);
    ActiveCovered(cfg, s, r, t);
    AdmittedUnentered(cfg, r, t);
    NotSafeBefore(cfg, s, steps);
  }

  /** A task whose reading lets it pass does so, without an entry. */
  lemma LostSnapped(cfg: Config, s: State, t: nat)
    requires Lost(cfg, s, t) && s.tasks[t].pc == Snapped
    ensures !StaysSafe(cfg, s)
  {
    var m := OrderlySchedules(cfg);
    var steps := Advance(m, s, [], Decide(t, true));
    DecidedLost(cfg, s, t);
    LostAdmitted(cfg, Final(m, s, steps), t);
    NotSafeBefore(cfg, s, steps);
  }

  lemma DecidedLost(cfg: Config, s: State, t: nat)
    requires Lost(cfg, s, t) && s.tasks[t].pc == Snapped
    ensures var r := Apply(cfg, s, Decide(t, true)); Lost(cfg, r, t) && r.tasks[t].admitted
  {
    var r := Apply(cfg, s, Decide(t, true));
    Decided(cfg, s, t);
    Custody.InnerSteps(cfg, s, Decide(t, true));
    Custody.KnownKept(s, r);
    Custody.ActiveKept(s, r);
    OrderlyCustody.GatesKept(cfg, s, Decide(t, true));
    DecidedMatches(cfg, s, r, t);
  }

  lemma DecidedMatches(cfg: Config, s: State, r: State, t: nat)
    requires Lost(cfg, s, t) && AtPc(r, t, Executing) && r.tasks == s.tasks[t := r.tasks[t]] && r.tasks[t].order == s.tasks[t].order
    requires r.active == s.active
    ensures forall u | u in r.tasks && Live(cfg, r.tasks[u]) && r.tasks[u].order.id in r.active ::
              r.active[r.tasks[u].order.id] == r.tasks[u].order
  {
  }

  lemma Decided(cfg: Config, s: State, t: nat)
    requires AtPc(s, t, Snapped) && s.tasks[t].exposure + s.tasks[t].order.amount <= cfg.portfolio
    ensures var r := Apply(cfg, s, Decide(t, true));
            && AtPc(r, t, Executing) && r.tasks[t].admitted && r.tasks[t].order == s.tasks[t].order && r.tasks == s.tasks[t := r.tasks[t]]
            && r.active == s.active && r.queue == s.queue && r.pending == s.pending && r.submitted == s.submitted
            && Running(r) == Running(s)
  {
  }

  /** A task that only entered passes once the others are out: its own missing entry makes room for it. */
  lemma LostInserted(cfg: Config, s: State, t: nat)
    requires Lost(cfg, s, t) && s.tasks[t].pc == Inserted && Total(Admitted(s)) <= cfg.portfolio
    ensures !StaysSafe(cfg, s)
  {
    var m := OrderlySchedules(cfg);
    var steps := LetAllOut(cfg, s, t);
    var r := Final(m, s, steps);
    LostAmount(cfg, s, t);
    EmptiedRoom(cfg, s, r, t);
    ActiveCovered(cfg, s, r, t);
    SameAdmitted(cfg, s, r, t);
    PassesUnentered(cfg, r, t);
    NotSafeBefore(cfg, s, steps);
  }

  lemma SameAdmitted(cfg: Config, s: State, r: State, t: nat)
    requires OrderlyCustody.Gates(s) && AtPc(s, t, Inserted) && Emptied(s, r, t)
    ensures AtPc(r, t, Inserted) && !r.tasks[t].admitted && Admitted(r) == Admitted(s) && r.tasks[t] == s.tasks[t]
  {
    assert OrderlyCustody.GateOk(s.tasks[t]);
    assert forall u | u in Waiting(s, t) :: !s.tasks[u].admitted;
    assert forall u | u in s.tasks && s.tasks[u].admitted :: u !in Waiting(s, t) && u in r.tasks;
  }

  lemma PassesUnentered(cfg: Config, r: State, t: nat)
    requires Custody.TasksNumbered(r) && Room(cfg, r) && r.active.Keys <= r.submitted.Keys
    requires AtPc(r, t, Inserted) && !r.tasks[t].admitted && 0 < r.tasks[t].order.amount <= cfg.portfolio
    requires Total(Amounts(r.active)) <= Total(Admitted(r) - {t}) && Total(Admitted(r)) <= cfg.portfolio
    ensures !StaysSafe(cfg, r)
  {
    assert Admitted(r) - {t} == Admitted(r);
    var pass := PassGate(cfg, r, t);
    var e := Final(OrderlySchedules(cfg), r, pass);
    assert Admitted(e) - {t} == Admitted(r);
    assert Running(e) == Running(r);
    AdmittedUnentered(cfg, e, t);
    NotSafeBefore(cfg, r, pass);
  }

  /** A live order without an entry: the limit can be exceeded. */
  lemma LostUnsafe(cfg: Config, s: State, t: nat)
    requires Lost(cfg, s, t) && Total(Admitted(s)) <= cfg.portfolio
    ensures !StaysSafe(cfg, s)
  {
    if s.tasks[t].admitted {
      LostAdmitted(cfg, s, t);
    } else if s.tasks[t].pc == Snapped {
      LostSnapped(cfg, s, t);
    } else {
      LostInserted(cfg, s, t);
    }
  }

  lemma NotSafeBefore(cfg: Config, r: State, steps: seq<Step>)
    requires Valid(OrderlySchedules(cfg), r, steps) && !StaysSafe(cfg, Final(OrderlySchedules(cfg), r, steps))
    ensures !StaysSafe(cfg, r)
  {
    var m, e := OrderlySchedules(cfg), Final(OrderlySchedules(cfg), r, steps);
    var more := Excess(cfg, e);
    Concat(m, r, steps, more);
  }

  lemma Excess(cfg: Config, r: State) returns (more: seq<Step>)
    requires !StaysSafe(cfg, r)
    ensures Valid(OrderlySchedules(cfg), r, more) && Total(Admitted(Final(OrderlySchedules(cfg), r, more))) > cfg.portfolio
  {
    more :| Valid(OrderlySchedules(cfg), r, more) && Total(Admitted(Final(OrderlySchedules(cfg), r, more))) > cfg.portfolio;
  }

  // ---- Cancelling ----

  /** In every state orderly runs reach with room for one more order and nothing stuck before the gate: a
      cancellation keeps all continuations within the limit exactly when it strikes no live order's entry. */
  lemma CancelExact(cfg: Config, s: State, id: Id)
    requires Inv(cfg, s) && NoneStuck(s) && Room(cfg, s)
    ensures StaysSafe(cfg, Apply(cfg, s, Cancel(id))) <==> Orderly(cfg, s, Cancel(id))
  {
    if Orderly(cfg, s, Cancel(id)) {
      StepKeeps(cfg, s, Cancel(id));
      SafeFrom(cfg, Apply(cfg, s, Cancel(id)));
    } else {
      var t :| t in s.tasks && s.tasks[t].order.id == id && Live(cfg, s.tasks[t]);
      CancelLoses(cfg, s, id, t);
      LostUnsafe(cfg, Apply(cfg, s, Cancel(id)), t);
    }
  }

  /** The entry is gone, its task is not. */
  lemma CancelLoses(cfg: Config, s: State, id: Id, t: nat)
    requires Inv(cfg, s) && NoneStuck(s) && Room(cfg, s) && t in s.tasks && s.tasks[t].order.id == id && Live(cfg, s.tasks[t])
    ensures var r := Apply(cfg, s, Cancel(id)); Lost(cfg, r, t) && Total(Admitted(r)) <= cfg.portfolio
  {
    AdmittedFit(cfg, s);
    Custody.StepKeeps(cfg, s, Cancel(id));
    OrderlyCustody.GatesKept(cfg, s, Cancel(id));
    CancelState(cfg, s, id);
  }

  lemma CancelState(cfg: Config, s: State, id: Id)
    requires Room(cfg, s)
    ensures var r := Apply(cfg, s, Cancel(id));
            r.tasks == s.tasks && r.active == s.active - {id} && Room(cfg, r) && Admitted(r) == Admitted(s)
  {
    assert Running(Apply(cfg, s, Cancel(id))) == Running(s);
  }

  /** Such a state is reached as soon as an order executes: one cancellation then breaks the limit. */
  lemma CancelBreaksLimit(cfg: Config) returns (steps: seq<Step>, more: seq<Step>)
    requires 1 <= cfg.portfolio && 2 <= cfg.permits && 2 <= cfg.maxPending
    ensures Valid(OrderlySchedules(cfg), EMPTY, steps)
    ensures var s := Final(OrderlySchedules(cfg), EMPTY, steps);
            && 0 in s.active && Enabled(cfg, s, Cancel(0))
            && Valid(OrderlySchedules(cfg), Apply(cfg, s, Cancel(0)), more)
            && Total(Admitted(Final(OrderlySchedules(cfg), Apply(cfg, s, Cancel(0)), more))) > cfg.portfolio
  {
    steps := OneExecuting(cfg, EMPTY);
    var s := Final(OrderlySchedules(cfg), EMPTY, steps);
    Reachable(cfg, steps);
    assert Live(cfg, s.tasks[0]);
    CancelExact(cfg, s, 0);
    more := Excess(cfg, Apply(cfg, s, Cancel(0)));
  }

  lemma OneExecuting(cfg: Config, start: State) returns (steps: seq<Step>)
    requires start == EMPTY && 1 <= cfg.portfolio && 2 <= cfg.permits && 2 <= cfg.maxPending
    ensures Valid(OrderlySchedules(cfg), start, steps)
    ensures var s := Final(OrderlySchedules(cfg), start, steps);
            && s.tasks.Keys == {0} && AtPc(s, 0, Executing) && s.tasks[0].admitted
            && s.tasks[0].order == Order(0, cfg.portfolio, 0) && s.active == map[0 := s.tasks[0].order]
            && s.queue == [] && s.pending == [0] && s.nextTask == 1 && Running(s) == {0}
  {
    steps := Overfill(cfg, start, 0, cfg.portfolio);
  }

  // ---- Re-entering early ----

  /** In every state orderly runs reach with room for one more order once the previous task is gone, and nothing stuck
      before the gate: entering the active map keeps all continuations within the limit exactly when the order's
      previous entry is gone. */
  lemma InsertExact(cfg: Config, s: State, t: nat)
    requires Inv(cfg, s) && NoneStuck(s) && Enabled(cfg, s, Insert(t))
    requires |s.pending| < cfg.maxPending && |Running(s)| + |s.queue| <= cfg.permits
    ensures StaysSafe(cfg, Apply(cfg, s, Insert(t))) <==> s.tasks[t].order.id !in s.active
  {
    var r := Apply(cfg, s, Insert(t));
    if s.tasks[t].order.id !in s.active {
      StepKeeps(cfg, s, Insert(t));
      SafeFrom(cfg, r);
    } else {
      var u := PreviousSent(cfg, s, t);
      EntryLost(cfg, s, t, u);
      LostUnsafe(cfg, Apply(cfg, r, Remove(u)), t);
      var steps := Advance(OrderlySchedules(cfg), r, [], Remove(u));
      NotSafeBefore(cfg, r, steps);
    }
  }

  /** The task that still holds the order's entry has sent it back; the same amount passed the gate before. */
  lemma PreviousSent(cfg: Config, s: State, t: nat) returns (u: nat)
    requires Inv(cfg, s) && AtPc(s, t, Taken) && s.tasks[t].order.id in s.active
    ensures u != t && AtPc(s, u, Sent) && s.tasks[u].order.id == s.tasks[t].order.id
    ensures s.tasks[t].order.amount <= cfg.portfolio
  {
    u := HolderOf(s, s.tasks[t].order.id);
    assert Custody.IsSubmitted(s, s.tasks[u].order) && Custody.IsSubmitted(s, s.tasks[t].order);
    assert OrderlyCustody.GateOk(s.tasks[u]) && StampOk(cfg, s.clock, s.tasks[u]);
  }

  /** The previous task removes the new entry. */
  lemma EntryLost(cfg: Config, s: State, t: nat, u: nat)
    requires Inv(cfg, s) && NoneStuck(s) && Enabled(cfg, s, Insert(t)) && AtPc(s, u, Sent) && t != u
    requires |s.pending| < cfg.maxPending && |Running(s)| + |s.queue| <= cfg.permits
    requires s.tasks[u].order.id == s.tasks[t].order.id && s.tasks[t].order.amount <= cfg.portfolio
    ensures var r := Apply(cfg, s, Insert(t));
            var e := Apply(cfg, r, Remove(u));
            Enabled(cfg, r, Remove(u)) && Lost(cfg, e, t) && Total(Admitted(e)) <= cfg.portfolio
  {
    var r := Apply(cfg, s, Insert(t));
    AdmittedFit(cfg, s);
    InsertThenRemove(cfg, s, t, u);
    Custody.StepKeeps(cfg, s, Insert(t));
    Custody.StepKeeps(cfg, r, Remove(u));
    OrderlyCustody.GatesKept(cfg, s, Insert(t));
    OrderlyCustody.GatesKept(cfg, r, Remove(u));
    RetryLost(cfg, s, Apply(cfg, r, Remove(u)), t, u);
  }

  lemma RetryLost(cfg: Config, s: State, e: State, t: nat, u: nat)
    requires OrderlyCustody.LiveActive(cfg, s) && NoneStuck(s) && AtPc(s, t, Taken) && AtPc(s, u, Sent) && t != u
    requires OrderlyCustody.Gates(s) && s.tasks[t].order.amount <= cfg.portfolio && Total(Admitted(s)) <= cfg.portfolio
    requires e.tasks == (s.tasks - {u})[t := s.tasks[t].(pc := Inserted)] && e.active == s.active - {s.tasks[t].order.id}
    requires Custody.TasksNumbered(e) && Custody.ActiveEntered(e) && Custody.Known(e) && OrderlyCustody.Gates(e) && Room(cfg, e)
    ensures Lost(cfg, e, t) && Total(Admitted(e)) <= cfg.portfolio
  {
    assert OrderlyCustody.GateOk(s.tasks[t]);
    TotalSubmap(Admitted(e), Admitted(s));
  }

  lemma InsertThenRemove(cfg: Config, s: State, t: nat, u: nat)
    requires AtPc(s, t, Taken) && AtPc(s, u, Sent) && t != u && s.tasks[u].order.id == s.tasks[t].order.id
    requires |s.pending| < cfg.maxPending && |Running(s)| + |s.queue| <= cfg.permits
    ensures var r := Apply(cfg, s, Insert(t));
            var e := Apply(cfg, r, Remove(u));
            && Enabled(cfg, r, Remove(u)) && Room(cfg, e)
            && e.tasks == (s.tasks - {u})[t := s.tasks[t].(pc := Inserted)] && e.active == s.active - {s.tasks[t].order.id}
  {
    var r := Apply(cfg, s, Insert(t));
    Custody.InsertEnters(cfg, s, t);
    Custody.RemoveLeaves(cfg, r, u);
    PendingSame(cfg, s, Insert(t));
    PendingSame(cfg, r, Remove(u));
    OneFewer(s, Apply(cfg, r, Remove(u)), t, u);
  }

  lemma PendingSame(cfg: Config, s: State, step: Step)
    requires !step.Submit? && !step.Cancel?
    ensures Apply(cfg, s, step).pending == s.pending
  {
  }

  lemma OneFewer(s: State, e: State, t: nat, u: nat)
    requires AtPc(s, t, Taken) && AtPc(s, u, Sent) && t != u && e.tasks == s.tasks[t := s.tasks[t].(pc := Inserted)] - {u}
    ensures |Running(e)| == |Running(s)| - 1 && e.tasks == (s.tasks - {u})[t := s.tasks[t].(pc := Inserted)]
  {
    assert Running(e) == Running(s) - {u};
    assert u in Running(s);
  }

  /** Such a state is reached by one failed execution: the retry entering at once breaks the limit. */
  lemma EarlyRetryBreaksLimit(cfg: Config, error: string) returns (steps: seq<Step>, more: seq<Step>)
    requires 1 <= cfg.portfolio && 2 <= cfg.permits && 2 <= cfg.maxPending && 1 <= cfg.maxRetries && Transient(error)
    ensures Valid(OrderlySchedules(cfg), EMPTY, steps)
    ensures var s := Final(OrderlySchedules(cfg), EMPTY, steps);
            && AtPc(s, 0, Sent) && AtPc(s, 1, Taken) && Enabled(cfg, s, Insert(1))
            && Valid(OrderlySchedules(cfg), Apply(cfg, s, Insert(1)), more)
            && Total(Admitted(Final(OrderlySchedules(cfg), Apply(cfg, s, Insert(1)), more))) > cfg.portfolio
  {
    RetriableExact(error);
    steps := RetryTaken(cfg, EMPTY, error);
    var s := Final(OrderlySchedules(cfg), EMPTY, steps);
    Reachable(cfg, steps);
    RetryReady(s);
    InsertExact(cfg, s, 1);
    more := Excess(cfg, Apply(cfg, s, Insert(1)));
  }

  lemma RetryReady(s: State)
    requires s.tasks.Keys == {0, 1} && AtPc(s, 0, Sent) && AtPc(s, 1, Taken) && Running(s) == {0, 1}
    ensures NoneStuck(s) && |Running(s)| == 2
  {
  }

  lemma RetryTaken(cfg: Config, start: State, error: string) returns (steps: seq<Step>)
    requires start == EMPTY && 1 <= cfg.portfolio && 2 <= cfg.permits && 2 <= cfg.maxPending && 1 <= cfg.maxRetries && IsRetriable(error)
    ensures Valid(OrderlySchedules(cfg), start, steps)
    ensures var s := Final(OrderlySchedules(cfg), start, steps);
            && s.tasks.Keys == {0, 1} && AtPc(s, 0, Sent) && AtPc(s, 1, Taken) && s.tasks[0].admitted
            && s.tasks[1].order.id == 0 && s.active.Keys == {0} && s.queue == [] && s.pending == [0] && Running(s) == {0, 1}
  {
    var m := OrderlySchedules(cfg);
    steps := OneExecuting(cfg, start);
    var more := SendBack(cfg, Final(m, start, steps), error);
    Concat(m, start, steps, more);
    steps := steps + more;
  }

  lemma FailOnce(cfg: Config, s: State, error: string) returns (steps: seq<Step>)
    requires s.tasks.Keys == {0} && AtPc(s, 0, Executing) && s.tasks[0].admitted && s.queue == [] && s.nextTask == 1
    requires s.tasks[0].order.retries < cfg.maxRetries && IsRetriable(error)
    ensures Valid(OrderlySchedules(cfg), s, steps)
    ensures var r, o := Final(OrderlySchedules(cfg), s, steps), s.tasks[0].order;
            && r.tasks.Keys == {0} && AtPc(r, 0, Sent) && r.tasks[0].admitted && r.queue == [o.(retries := o.retries + 1)]
            && r.active == s.active && r.pending == s.pending && r.nextTask == 1 && |Running(r)| == 1
  {
    steps := Advance(OrderlySchedules(cfg), s, [], Fail(0, error));
    steps := Advance(OrderlySchedules(cfg), s, steps, Requeue(0));
    assert Running(Final(OrderlySchedules(cfg), s, steps)) == {0};
  }

  lemma SendBack(cfg: Config, s: State, error: string) returns (steps: seq<Step>)
    requires s.tasks.Keys == {0} && AtPc(s, 0, Executing) && s.tasks[0].admitted && s.queue == [] && s.nextTask == 1
    requires 2 <= cfg.permits && s.tasks[0].order.retries < cfg.maxRetries && IsRetriable(error)
    ensures Valid(OrderlySchedules(cfg), s, steps)
    ensures var r := Final(OrderlySchedules(cfg), s, steps);
            && r.tasks.Keys == {0, 1} && AtPc(r, 0, Sent) && AtPc(r, 1, Taken) && r.tasks[0].admitted
            && r.tasks[1].order.id == s.tasks[0].order.id && r.active == s.active && r.queue == [] && r.pending == s.pending
            && Running(r) == {0, 1}
  {
    var m := OrderlySchedules(cfg);
    steps := FailOnce(cfg, s, error);
    var more := TakeOne(cfg, Final(m, s, steps));
    Concat(m, s, steps, more);
    steps := steps + more;
  }
}

/** The exposure limit under concurrency.

  Tasks read the total of the active map and decide later, so two decisions can both rest on
  readings that miss the other.  They cannot both miss: of two admitted orders, the one that read
  last saw the other in the map. */
module Exposure {
  import opened Runs
  import opened Totals
  import opened OrderPipeline
  import Custody
  import OrderlyCustody

  /** The task has read its exposure, and its order is past the gate or will pass it on that reading. */
  predicate Counted(cfg: Config, me: Task)
  {
    me.admitted || (me.pc == Snapped && me.exposure + me.order.amount <= cfg.portfolio)
  }

  /** Amounts of the counted orders whose reading is not later than that of task t. */
  function ReadBy(cfg: Config, s: State, t: nat): map<nat, nat>
    requires t in s.tasks
  {
    map u | u in s.tasks && Counted(cfg, s.tasks[u]) && s.tasks[u].stamp <= s.tasks[t].stamp :: s.tasks[u].order.amount
  }

  /** Amounts of the orders past the gate and not yet removed from the active map, by task. */
  function Admitted(s: State): map<nat, nat>
  {
    map t | t in s.tasks && s.tasks[t].admitted :: s.tasks[t].order.amount
  }

  ghost predicate ReadingsCover(cfg: Config, s: State)
  {
    forall t | t in s.tasks && Counted(cfg, s.tasks[t]) ::
      Total(ReadBy(cfg, s, t)) <= s.tasks[t].exposure + s.tasks[t].order.amount
  }

  ghost predicate Stamped(cfg: Config, s: State)
  {
    forall t | t in s.tasks :: StampOk(cfg, s.clock, s.tasks[t])
  }

  ghost predicate Inv(cfg: Config, s: State)
  {
    OrderlyCustody.Inv(cfg, s) && ReadingsCover(cfg, s) && Stamped(cfg, s)
  }

  /** No task gains or changes a reading. */
  predicate NoNewReading(cfg: Config, s: State, r: State)
  {
    forall t | t in r.tasks && Counted(cfg, r.tasks[t]) ::
      t in s.tasks && Counted(cfg, s.tasks[t]) &&
      r.tasks[t].order == s.tasks[t].order && r.tasks[t].stamp == s.tasks[t].stamp && r.tasks[t].exposure == s.tasks[t].exposure
  }

  lemma CoverKept(cfg: Config, s: State, r: State)
    requires ReadingsCover(cfg, s) && NoNewReading(cfg, s, r)
    ensures ReadingsCover(cfg, r)
  {
    forall t | t in r.tasks && Counted(cfg, r.tasks[t])
      ensures Total(ReadBy(cfg, r, t)) <= r.tasks[t].exposure + r.tasks[t].order.amount
    {
      TotalSubmap(ReadBy(cfg, r, t), ReadBy(cfg, s, t));
    }
  }

  lemma NoNewReadings(cfg: Config, s: State, step: Step)
    requires Enabled(cfg, s, step) && !step.Snapshot? && Custody.TasksNumbered(s)
    ensures NoNewReading(cfg, s, Apply(cfg, s, step))
  {
    if IsInner(step) {
      Custody.InnerSteps(cfg, s, step);
      InnerReading(cfg, s, step);
    }
  }

  lemma InnerReading(cfg: Config, s: State, step: Step)
    requires Enabled(cfg, s, step) && IsInner(step) && !step.Snapshot?
    ensures var before, after := s.tasks[step.t], Apply(cfg, s, step).tasks[step.t];
            before.stamp == after.stamp && before.exposure == after.exposure && (Counted(cfg, after) ==> Counted(cfg, before))
  {
  }

  /** Live tasks have distinct orders, all in the active map: their total is covered by the map's. */
  lemma LiveTotal(cfg: Config, s: State, amounts: map<nat, nat>)
    requires OrderlyCustody.Handovers(s) && OrderlyCustody.LiveActive(cfg, s)
    requires forall u | u in amounts :: u in s.tasks && s.tasks[u].pc != Taken && Live(cfg, s.tasks[u]) && amounts[u] == s.tasks[u].order.amount
    ensures Total(amounts) <= Total(Amounts(s.active))
  {
    var names := map u | u in s.tasks :: s.tasks[u].order.id;
    assert forall u, v | u in amounts && v in amounts && s.tasks[u].order.id == s.tasks[v].order.id :: u == v;
    TotalInjective(amounts, Amounts(s.active), names);
  }

  /** Task t has just read the map: nobody read later, nothing else moved. */
  ghost predicate JustRead(cfg: Config, s: State, r: State, t: nat)
  {
    && AtPc(s, t, Inserted) && AtPc(r, t, Snapped) && r.tasks == s.tasks[t := r.tasks[t]] && !r.tasks[t].admitted
    && r.tasks[t].order == s.tasks[t].order && r.tasks[t].stamp == s.clock
    && (forall u | u in s.tasks && Counted(cfg, s.tasks[u]) :: s.tasks[u].pc != Taken && s.tasks[u].stamp < s.clock)
    && r.tasks[t].exposure + s.tasks[t].order.amount >= Total(Amounts(s.active))
  }

  /** The new reading covers all counted orders: each is live, so in the active map under its own id. */
  lemma ReaderCovers(cfg: Config, s: State, r: State, t: nat)
    requires OrderlyCustody.Handovers(s) && OrderlyCustody.LiveActive(cfg, s) && JustRead(cfg, s, r, t)
    ensures Total(ReadBy(cfg, r, t)) <= r.tasks[t].exposure + r.tasks[t].order.amount
  {
    LiveTotal(cfg, s, ReadBy(cfg, r, t));
  }

  lemma OthersUnaffected(cfg: Config, s: State, r: State, t: nat, u: nat)
    requires JustRead(cfg, s, r, t) && u in s.tasks && u != t && Counted(cfg, s.tasks[u])
    ensures Total(ReadBy(cfg, r, u)) <= Total(ReadBy(cfg, s, u))
  {
    TotalSubmap(ReadBy(cfg, r, u), ReadBy(cfg, s, u));
  }

  lemma SnapshotCovers(cfg: Config, s: State, r: State, t: nat)
    requires OrderlyCustody.Handovers(s) && OrderlyCustody.LiveActive(cfg, s) && ReadingsCover(cfg, s) && JustRead(cfg, s, r, t)
    ensures ReadingsCover(cfg, r)
  {
    ReaderCovers(cfg, s, r, t);
    forall u | u in r.tasks && Counted(cfg, r.tasks[u]) && u != t
      ensures Total(ReadBy(cfg, r, u)) <= r.tasks[u].exposure + r.tasks[u].order.amount
    {
      OthersUnaffected(cfg, s, r, t, u);
    }
  }

  lemma SnapshotStep(cfg: Config, s: State, t: nat)
    requires OrderlyCustody.Handovers(s) && OrderlyCustody.LiveActive(cfg, s) && OrderlyCustody.Gates(s)
    requires ReadingsCover(cfg, s) && Stamped(cfg, s) && Enabled(cfg, s, Snapshot(t))
    ensures ReadingsCover(cfg, Apply(cfg, s, Snapshot(t)))
  {
    forall u | u in s.tasks && Counted(cfg, s.tasks[u])
      ensures s.tasks[u].pc != Taken && s.tasks[u].stamp < s.clock
    {
      assert StampOk(cfg, s.clock, s.tasks[u]) && OrderlyCustody.GateOk(s.tasks[u]);
    }
    assert OrderlyCustody.GateOk(s.tasks[t]);
    SnapshotCovers(cfg, s, Apply(cfg, s, Snapshot(t)), t);
  }

  predicate StampOk(cfg: Config, clock: nat, me: Task)
  {
    && (Counted(cfg, me) ==> me.stamp < clock)
    && (me.admitted ==> me.exposure + me.order.amount <= cfg.portfolio)
  }

  lemma StampedKept(cfg: Config, s: State, step: Step)
    requires Stamped(cfg, s) && OrderlyCustody.Gates(s) && Enabled(cfg, s, step)
    ensures Stamped(cfg, Apply(cfg, s, step))
  {
    var r := Apply(cfg, s, step);
    if IsInner(step) {
      assert OrderlyCustody.GateOk(s.tasks[step.t]);
      Custody.InnerSteps(cfg, s, step);
      InnerStamp(cfg, s, step);
    }
    forall t | t in r.tasks
      ensures StampOk(cfg, r.clock, r.tasks[t])
    {
      if t in s.tasks {
        assert StampOk(cfg, s.clock, s.tasks[t]);
      }
    }
  }

  lemma InnerStamp(cfg: Config, s: State, step: Step)
    requires Stamped(cfg, s) && Enabled(cfg, s, step) && IsInner(step) && OrderlyCustody.GateOk(s.tasks[step.t])
    ensures var r := Apply(cfg, s, step); step.t in r.tasks && StampOk(cfg, r.clock, r.tasks[step.t]) && s.clock <= r.clock
  {
    assert StampOk(cfg, s.clock, s.tasks[step.t]);
  }

  lemma StepKeeps(cfg: Config, s: State, step: Step)
    requires Inv(cfg, s) && Enabled(cfg, s, step) && Orderly(cfg, s, step)
    ensures Inv(cfg, Apply(cfg, s, step))
  {
    OrderlyCustody.StepKeeps(cfg, s, step);
    StampedKept(cfg, s, step);
    if step.Snapshot? {
      SnapshotStep(cfg, s, step.t);
    } else {
      NoNewReadings(cfg, s, step);
      CoverKept(cfg, s, Apply(cfg, s, step));
    }
  }

  lemma Kept(cfg: Config, s: State, steps: seq<Step>)
    requires Inv(cfg, s) && Valid(OrderlySchedules(cfg), s, steps)
    ensures Inv(cfg, Final(OrderlySchedules(cfg), s, steps))
  {
    var m := OrderlySchedules(cfg);
    forall r, l | Inv(cfg, r) && m.enabled(r, l)
      ensures Inv(cfg, m.apply(r, l))
    {
      StepKeeps(cfg, r, l);
    }
    Preserved(m, (r: State) => Inv(cfg, r), s, steps);
  }

  lemma Reachable(cfg: Config, steps: seq<Step>)
    requires Valid(OrderlySchedules(cfg), EMPTY, steps)
    ensures Inv(cfg, Final(OrderlySchedules(cfg), EMPTY, steps))
  {
    Kept(cfg, EMPTY, steps);
  }

  lemma {:induction false} LastReader(s: State, among: set<nat>) returns (last: nat)
    requires among != {} && among <= s.tasks.Keys
    ensures last in among && forall t | t in among :: s.tasks[t].stamp <= s.tasks[last].stamp
  {
    last :| last in among;
    if among != {last} {
      var other := LastReader(s, among - {last});
      if s.tasks[last].stamp < s.tasks[other].stamp {
        last := other;
      }
    }
  }

  lemma AdmittedFit(cfg: Config, s: State)
    requires ReadingsCover(cfg, s) && Stamped(cfg, s)
    ensures Total(Admitted(s)) <= cfg.portfolio
  {
    if Admitted(s) != map[] {
      var t :| t in Admitted(s);
      var last := LastReader(s, Admitted(s).Keys);
      assert StampOk(cfg, s.clock, s.tasks[last]);
      TotalSubmap(Admitted(s), ReadBy(cfg, s, last));
    }
  }

  /** Every orderly continuation stays within the limit. */
  ghost predicate StaysSafe(cfg: Config, s: State)
  {
    forall more | Valid(OrderlySchedules(cfg), s, more) ::
      Total(Admitted(Final(OrderlySchedules(cfg), s, more))) <= cfg.portfolio
  }

  lemma SafeFrom(cfg: Config, s: State)
    requires Inv(cfg, s)
    ensures StaysSafe(cfg, s)
  {
    forall more | Valid(OrderlySchedules(cfg), s, more)
      ensures Total(Admitted(Final(OrderlySchedules(cfg), s, more))) <= cfg.portfolio
    {
      Kept(cfg, s, more);
      AdmittedFit(cfg, Final(OrderlySchedules(cfg), s, more));
    }
  }

  /** In every orderly run, the orders past the gate and not yet removed never exceed the portfolio limit,
      even when closing writes fail and leave orders in the map for good. */
  lemma ExposureSafe(cfg: Config, steps: seq<Step>)
    requires Valid(OrderlySchedules(cfg), EMPTY, steps)
    ensures Total(Admitted(Final(OrderlySchedules(cfg), EMPTY, steps))) <= cfg.portfolio
  {
    Reachable(cfg, steps);
    AdmittedFit(cfg, Final(OrderlySchedules(cfg), EMPTY, steps));
  }
}

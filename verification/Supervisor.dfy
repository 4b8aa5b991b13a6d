/** The wallet supervisor: one worker per wallet, restarts with backoff, permanent skips.

  The event loop handles one event at a time, in any order: a spawn request from the watcher, a restart
  message from a backoff timer, the exit of a worker.  The environment (the worker tasks, the timers, the
  restart channel) is part of the state. */
module Supervisor {
  import opened Basics
  import opened Runs

  type Wallet = string

  const MAX_RESTART_ATTEMPTS: nat := 3

  /** The loop's own variables. */
  datatype Books = Books(
    activeIds: set<Wallet>,
    inBackoff: set<Wallet>,
    permanentlySkipped: set<Wallet>,
    runtimeFails: map<Wallet, nat>,
    buildFails: map<Wallet, nat>)

  const NO_BOOKS: Books := Books({}, {}, {}, map[], map[])

  /** Build a worker and start it, or book the failed build. */
  function SpawnEntry(b: Books, w: Wallet, built: bool): Books
  {
    if built then b.(buildFails := b.buildFails - {w}, activeIds := b.activeIds + {w})
    else
      var fails := Get(b.buildFails, w) + 1;
      b.(buildFails := b.buildFails[w := fails],
         permanentlySkipped := if fails >= MAX_RESTART_ATTEMPTS then b.permanentlySkipped + {w} else b.permanentlySkipped)
  }

  predicate RestartIgnored(b: Books, w: Wallet)
  {
    w in b.activeIds || w in b.permanentlySkipped
  }

  predicate SpawnIgnored(b: Books, w: Wallet)
  {
    w in b.activeIds || w in b.inBackoff || w in b.permanentlySkipped
  }

  function OnRestart(b: Books, w: Wallet, built: bool): Books
  {
    var c := b.(inBackoff := b.inBackoff - {w});
    if RestartIgnored(c, w) then c else SpawnEntry(c, w, built)
  }

  function OnSpawn(b: Books, w: Wallet, built: bool): Books
  {
    if SpawnIgnored(b, w) then b else SpawnEntry(b, w, built)
  }

  function OnExit(b: Books, w: Wallet): Books
  {
    var fails := Get(b.runtimeFails, w) + 1;
    var c := b.(activeIds := b.activeIds - {w}, runtimeFails := b.runtimeFails[w := fails]);
    if fails >= MAX_RESTART_ATTEMPTS then c.(permanentlySkipped := c.permanentlySkipped + {w})
    else c.(inBackoff := c.inBackoff + {w})
  }

  // ---- The loop in its environment ----

  /** `live` are the running worker tasks, `timers` the sleeping backoff timers, `restarts` the messages sent;
      `started` and `attempted` count, per wallet, the workers started and the calls that tried to. */
  datatype State = State(
    books: Books,
    live: multiset<Wallet>,
    timers: multiset<Wallet>,
    restarts: multiset<Wallet>,
    started: map<Wallet, nat>,
    attempted: map<Wallet, nat>)

  const BOOT: State := State(NO_BOOKS, multiset{}, multiset{}, multiset{}, map[], map[])

  datatype Step =
    | SpawnRequest(w: Wallet, built: bool)
    | Restart(w: Wallet, built: bool)
    | WorkerExit(w: Wallet)
    | WorkerLost(w: Wallet)               // the task ended without returning its wallet
    | TimerFires(w: Wallet, enabled: bool)  // a disabled wallet gets no message

  predicate Enabled(s: State, step: Step)
  {
    match step
    case SpawnRequest(w, built) => true
    case Restart(w, built) => w in s.restarts
    case WorkerExit(w) => w in s.live
    case WorkerLost(w) => w in s.live
    case TimerFires(w, enabled) => w in s.timers
  }

  /** The environment's side of an attempted spawn. */
  function Attempt(s: State, w: Wallet, built: bool): State
  {
    s.(attempted := s.attempted[w := Get(s.attempted, w) + 1],
       live := if built then s.live + multiset{w} else s.live,
       started := if built then s.started[w := Get(s.started, w) + 1] else s.started)
  }

  function Apply(s: State, step: Step): State
  {
    if !Enabled(s, step) then s else
    match step
    case SpawnRequest(w, built) =>
      var t := s.(books := OnSpawn(s.books, w, built));
      if SpawnIgnored(s.books, w) then t else Attempt(t, w, built)
    case Restart(w, built) =>
      var t := s.(books := OnRestart(s.books, w, built), restarts := s.restarts - multiset{w});
      if RestartIgnored(s.books, w) then t else Attempt(t, w, built)
    case WorkerExit(w) =>
      var b := OnExit(s.books, w);
      s.(books := b, live := s.live - multiset{w},
         timers := if Get(b.runtimeFails, w) >= MAX_RESTART_ATTEMPTS then s.timers else s.timers + multiset{w})
    case WorkerLost(w) => s.(live := s.live - multiset{w})
    case TimerFires(w, enabled) =>
      s.(timers := s.timers - multiset{w}, restarts := if enabled then s.restarts + multiset{w} else s.restarts)
  }

  const ORCHESTRATOR: Machine<State, Step> := Machine((s: State, step: Step) => Enabled(s, step), (s: State, step: Step) => Apply(s, step))

  /** All the state says about one wallet. */
  datatype Standing = Standing(
    active: bool, backoff: bool, skipped: bool, runtimeFails: nat, buildFails: nat,
    live: nat, timers: nat, restarts: nat, started: nat, attempted: nat)

  function Of(s: State, w: Wallet): Standing
  {
    Standing(w in s.books.activeIds, w in s.books.inBackoff, w in s.books.permanentlySkipped,
             Get(s.books.runtimeFails, w), Get(s.books.buildFails, w),
             s.live[w], s.timers[w], s.restarts[w], Get(s.started, w), Get(s.attempted, w))
  }

  predicate Sound(x: Standing)
  {
    && !(x.active && x.backoff) && !(x.active && x.skipped) && !(x.backoff && x.skipped)
    && x.live <= (if x.active then 1 else 0)
    && x.timers + x.restarts <= (if x.backoff then 1 else 0)
    && x.started == x.runtimeFails + (if x.active then 1 else 0)
    && x.runtimeFails <= MAX_RESTART_ATTEMPTS && x.buildFails <= MAX_RESTART_ATTEMPTS
    && (x.runtimeFails == MAX_RESTART_ATTEMPTS || x.buildFails == MAX_RESTART_ATTEMPTS ==> x.skipped)
    && (0 < x.buildFails ==> !x.active && x.runtimeFails < MAX_RESTART_ATTEMPTS)
    && x.attempted <= MAX_RESTART_ATTEMPTS * x.started + x.buildFails
  }

  predicate WalletInv(s: State, w: Wallet)
  {
    Sound(Of(s, w))
  }

  ghost predicate Inv(s: State)
  {
    forall w :: WalletInv(s, w)
  }

  lemma OthersUnattempted(s: State, v: Wallet, built: bool, w: Wallet)
    requires w != v
    ensures Of(Attempt(s.(books := SpawnEntry(s.books, v, built)), v, built), w) == Of(s, w)
  {
  }

  /** An event concerns one wallet. */
  lemma OthersUntouched(s: State, step: Step, w: Wallet)
    requires Enabled(s, step) && w != step.w
    ensures Of(Apply(s, step), w) == Of(s, w)
  {
    match step
    case SpawnRequest(v, built) => OthersUnrequested(s, v, built, w);
    case Restart(v, built) => OthersUnrestarted(s, v, built, w);
    case WorkerExit(v) => OthersStay(s, v, w);
    case _ => OthersQuiet(s, step, w);
  }

  lemma OthersQuiet(s: State, step: Step, w: Wallet)
    requires Enabled(s, step) && w != step.w && (step.WorkerLost? || step.TimerFires?)
    ensures Of(Apply(s, step), w) == Of(s, w)
  {
  }

  lemma OthersUnrequested(s: State, v: Wallet, built: bool, w: Wallet)
    requires w != v
    ensures Of(Apply(s, SpawnRequest(v, built)), w) == Of(s, w)
  {
    OthersUnattempted(s, v, built, w);
  }

  lemma OthersUnrestarted(s: State, v: Wallet, built: bool, w: Wallet)
    requires Enabled(s, Restart(v, built)) && w != v
    ensures Of(Apply(s, Restart(v, built)), w) == Of(s, w)
  {
    var t := s.(books := s.books.(inBackoff := s.books.inBackoff - {v}), restarts := s.restarts - multiset{v});
    assert Of(t, w) == Of(s, w);
    OthersUnattempted(t, v, built, w);
  }

  lemma OthersStay(s: State, v: Wallet, w: Wallet)
    requires Enabled(s, WorkerExit(v)) && w != v
    ensures Of(Apply(s, WorkerExit(v)), w) == Of(s, w)
  {
  }

  lemma AttemptKeeps(s: State, w: Wallet, built: bool)
    requires Sound(Of(s, w)) && !SpawnIgnored(s.books, w)
    ensures Sound(Of(Attempt(s.(books := SpawnEntry(s.books, w, built)), w, built), w))
  {
  }

  lemma RestartKeeps(s: State, w: Wallet, built: bool)
    requires Sound(Of(s, w)) && w in s.restarts
    ensures Sound(Of(Apply(s, Restart(w, built)), w))
  {
    var t := s.(books := s.books.(inBackoff := s.books.inBackoff - {w}), restarts := s.restarts - multiset{w});
    assert Of(t, w) == Of(s, w).(backoff := false, restarts := s.restarts[w] - 1);
    AttemptKeeps(t, w, built);
  }

  lemma ExitKeeps(s: State, w: Wallet)
    requires Sound(Of(s, w)) && w in s.live
    ensures Sound(Of(Apply(s, WorkerExit(w)), w))
  {
  }

  lemma StepKeepsWallet(s: State, step: Step, w: Wallet)
    requires WalletInv(s, w) && Enabled(s, step)
    ensures WalletInv(Apply(s, step), w)
  {
    if w != step.w {
      OthersUntouched(s, step, w);
    } else {
      match step
      case SpawnRequest(_, built) =>
        if !SpawnIgnored(s.books, w) {
          AttemptKeeps(s, w, built);
        }
      case Restart(_, built) => RestartKeeps(s, w, built);
      case WorkerExit(_) => ExitKeeps(s, w);
      case WorkerLost(_) =>
      case TimerFires(_, _) =>
    }
  }

  lemma StepKeeps(s: State, step: Step)
    requires Inv(s) && Enabled(s, step)
    ensures Inv(Apply(s, step))
  {
    forall w
      ensures WalletInv(Apply(s, step), w)
    {
      assert WalletInv(s, w);
      StepKeepsWallet(s, step, w);
    }
  }

  lemma Reachable(steps: seq<Step>)
    requires Valid(ORCHESTRATOR, BOOT, steps)
    ensures Inv(Final(ORCHESTRATOR, BOOT, steps))
  {
    var m := ORCHESTRATOR;
    forall s, l | Inv(s) && m.enabled(s, l)
      ensures Inv(m.apply(s, l))
    {
      StepKeeps(s, l);
    }
    Preserved(m, (s: State) => Inv(s), BOOT, steps);
  }

  /** For any order of events the three sets stay disjoint, and each wallet has at most one live worker
      and at most one timer or restart message, which it has only while in backoff. */
  lemma Safety(steps: seq<Step>, w: Wallet)
    requires Valid(ORCHESTRATOR, BOOT, steps)
    ensures var s := Final(ORCHESTRATOR, BOOT, steps);
            && s.books.activeIds !! s.books.inBackoff !! s.books.permanentlySkipped
            && s.live[w] <= 1 && s.timers[w] + s.restarts[w] <= 1
            && (s.timers[w] + s.restarts[w] == 1 ==> w in s.books.inBackoff)
            && (0 < s.live[w] ==> w in s.books.activeIds)
  {
    Reachable(steps);
    var s := Final(ORCHESTRATOR, BOOT, steps);
    assert WalletInv(s, w);
    forall x
      ensures !(x in s.books.activeIds && x in s.books.inBackoff) && !(x in s.books.activeIds && x in s.books.permanentlySkipped)
      ensures !(x in s.books.inBackoff && x in s.books.permanentlySkipped)
    {
      assert WalletInv(s, x);
    }
  }

  /** Each wallet is started at most 3 times, with at most 9 attempts. */
  lemma BoundedWork(steps: seq<Step>, w: Wallet)
    requires Valid(ORCHESTRATOR, BOOT, steps)
    ensures var s := Final(ORCHESTRATOR, BOOT, steps);
            Get(s.started, w) <= 3 && Get(s.attempted, w) <= 9
  {
    Reachable(steps);
    assert WalletInv(Final(ORCHESTRATOR, BOOT, steps), w);
  }

  /** One build failed so far in this round: one more fails, the next worker starts and exits. */
  lemma RestOfRound(s: State, w: Wallet, n: nat, a: nat) returns (steps: seq<Step>)
    requires n < MAX_RESTART_ATTEMPTS && Of(s, w) == Standing(false, false, false, n, 1, 0, 0, 0, n, a)
    ensures Valid(ORCHESTRATOR, s, steps)
    ensures var last := n + 1 == MAX_RESTART_ATTEMPTS;
            Of(Final(ORCHESTRATOR, s, steps), w) ==
            Standing(false, !last, last, n + 1, 0, 0, if last then 0 else 1, 0, n + 1, a + 2)
  {
    steps := Advance(ORCHESTRATOR, s, [], SpawnRequest(w, false));
    assert Of(Final(ORCHESTRATOR, s, steps), w) == Standing(false, false, false, n, 2, 0, 0, 0, n, a + 1);
    steps := Advance(ORCHESTRATOR, s, steps, SpawnRequest(w, true));
    assert Of(Final(ORCHESTRATOR, s, steps), w) == Standing(true, false, false, n, 0, 1, 0, 0, n + 1, a + 2);
    steps := Advance(ORCHESTRATOR, s, steps, WorkerExit(w));
  }

  /** The timer fires and the restart's build fails: the next round. */
  lemma NextRound(s: State, w: Wallet, n: nat, a: nat) returns (steps: seq<Step>)
    requires n < MAX_RESTART_ATTEMPTS && Of(s, w) == Standing(false, true, false, n, 0, 0, 1, 0, n, a)
    ensures Valid(ORCHESTRATOR, s, steps)
    ensures var last := n + 1 == MAX_RESTART_ATTEMPTS;
            Of(Final(ORCHESTRATOR, s, steps), w) ==
            Standing(false, !last, last, n + 1, 0, 0, if last then 0 else 1, 0, n + 1, a + 3)
  {
    steps := Advance(ORCHESTRATOR, s, [], TimerFires(w, true));
    assert Of(Final(ORCHESTRATOR, s, steps), w) == Standing(false, true, false, n, 0, 0, 0, 1, n, a);
    steps := Advance(ORCHESTRATOR, s, steps, Restart(w, false));
    assert Of(Final(ORCHESTRATOR, s, steps), w) == Standing(false, false, false, n, 1, 0, 0, 0, n, a + 1);
    var more := RestOfRound(Final(ORCHESTRATOR, s, steps), w, n, a + 1);
    Concat(ORCHESTRATOR, s, steps, more);
    steps := steps + more;
  }

  /** Both bounds are reached: three rounds of two failed builds and a worker that exits. */
  lemma BoundsReached(start: State, w: Wallet) returns (steps: seq<Step>)
    requires start == BOOT
    ensures Valid(ORCHESTRATOR, start, steps)
    ensures var s := Final(ORCHESTRATOR, start, steps);
            Get(s.started, w) == 3 && Get(s.attempted, w) == 9
  {
    var m := ORCHESTRATOR;
    steps := Advance(m, start, [], SpawnRequest(w, false));
    assert Of(Final(m, start, steps), w) == Standing(false, false, false, 0, 1, 0, 0, 0, 0, 1);
    var first := RestOfRound(Final(m, start, steps), w, 0, 1);
    Concat(m, start, steps, first);
    steps := steps + first;
    var second := NextRound(Final(m, start, steps), w, 1, 3);
    Concat(m, start, steps, second);
    steps := steps + second;
    var third := NextRound(Final(m, start, steps), w, 2, 6);
    Concat(m, start, steps, third);
    steps := steps + third;
    assert Of(Final(m, start, steps), w).attempted == 9;
  }

  /** A restart message is never ignored: its wallet is in backoff, so neither active nor skipped. */
  lemma RestartNeverIgnored(steps: seq<Step>, w: Wallet)
    requires Valid(ORCHESTRATOR, BOOT, steps) && w in Final(ORCHESTRATOR, BOOT, steps).restarts
    ensures !RestartIgnored(Final(ORCHESTRATOR, BOOT, steps).books, w)
  {
    Reachable(steps);
    assert WalletInv(Final(ORCHESTRATOR, BOOT, steps), w);
  }

  /** A wallet in backoff with neither timer nor message, as after its timer found it disabled, never runs again. */
  predicate Stranded(s: State, w: Wallet)
  {
    w in s.books.inBackoff && w !in s.books.activeIds && s.live[w] == 0 && s.timers[w] + s.restarts[w] == 0
  }

  lemma {:induction false} StrandedForGood(s: State, steps: seq<Step>, w: Wallet)
    requires Stranded(s, w) && Valid(ORCHESTRATOR, s, steps)
    ensures Stranded(Final(ORCHESTRATOR, s, steps), w)
    ensures Get(Final(ORCHESTRATOR, s, steps).started, w) == Get(s.started, w)
    decreases steps
  {
    if steps == [] {
    } else {
      StrandedStep(s, steps[0], w);
      StrandedForGood(Apply(s, steps[0]), steps[1..], w);
    }
  }

  lemma StrandedStep(s: State, step: Step, w: Wallet)
    requires Stranded(s, w) && Enabled(s, step)
    ensures Stranded(Apply(s, step), w) && Get(Apply(s, step).started, w) == Get(s.started, w)
  {
    if w != step.w {
      OthersUntouched(s, step, w);
      assert Of(Apply(s, step), w) == Of(s, w);
    }
  }

  /** Nothing but a timer that finds its wallet disabled strands it. */
  lemma StrandedStepExact(s: State, step: Step, w: Wallet)
    requires WalletInv(s, w) && Enabled(s, step)
    ensures Stranded(Apply(s, step), w) <==> Stranded(s, w) || step == TimerFires(w, false)
  {
    if Stranded(s, w) {
      StrandedStep(s, step, w);
    } else if w != step.w {
      OthersUntouched(s, step, w);
      assert Of(Apply(s, step), w) == Of(s, w);
    } else {
      NotStranded(s, step);
    }
  }

  lemma NotStranded(s: State, step: Step)
    requires WalletInv(s, step.w) && Enabled(s, step) && !Stranded(s, step.w)
    ensures Stranded(Apply(s, step), step.w) <==> step == TimerFires(step.w, false)
  {
  }

  /** In every run, a wallet is in backoff with neither timer nor restart message exactly when some timer of it
      found it disabled; it is then never started again. */
  lemma StrandedExactly(steps: seq<Step>, w: Wallet)
    requires Valid(ORCHESTRATOR, BOOT, steps)
    ensures Stranded(Final(ORCHESTRATOR, BOOT, steps), w) <==> TimerFires(w, false) in steps
  {
    assert Inv(BOOT);
    StrandedAlong(BOOT, steps, w);
  }

  lemma {:induction false} StrandedAlong(s: State, steps: seq<Step>, w: Wallet)
    requires Inv(s) && Valid(ORCHESTRATOR, s, steps)
    ensures Stranded(Final(ORCHESTRATOR, s, steps), w) <==> Stranded(s, w) || TimerFires(w, false) in steps
    decreases steps
  {
    if steps == [] {
    } else {
      assert WalletInv(s, w);
      StrandedStepExact(s, steps[0], w);
      StepKeeps(s, steps[0]);
      StrandedAlong(Apply(s, steps[0]), steps[1..], w);
      assert steps == [steps[0]] + steps[1..];
    }
  }

  /** So while no timer finds it disabled, a wallet in backoff has exactly one timer or restart message. */
  lemma BackoffPending(steps: seq<Step>, w: Wallet)
    requires Valid(ORCHESTRATOR, BOOT, steps) && TimerFires(w, false) !in steps
    requires w in Final(ORCHESTRATOR, BOOT, steps).books.inBackoff
    ensures var s := Final(ORCHESTRATOR, BOOT, steps); s.timers[w] + s.restarts[w] == 1
  {
    Reachable(steps);
    StrandedExactly(steps, w);
    assert WalletInv(Final(ORCHESTRATOR, BOOT, steps), w);
  }

  // ---- Workers whose task ends without returning its wallet ----

  predicate Orphaned(s: State, w: Wallet)
  {
    w in s.books.activeIds && s.live[w] == 0
  }

  lemma OrphanedStepExact(s: State, step: Step, w: Wallet)
    requires WalletInv(s, w) && Enabled(s, step)
    ensures Orphaned(Apply(s, step), w) <==> Orphaned(s, w) || step == WorkerLost(w)
    ensures Orphaned(s, w) ==> Get(Apply(s, step).started, w) == Get(s.started, w)
  {
    if w != step.w {
      OthersUntouched(s, step, w);
      assert Of(Apply(s, step), w) == Of(s, w);
    }
  }

  lemma {:induction false} OrphanedAlong(s: State, steps: seq<Step>, w: Wallet)
    requires Inv(s) && Valid(ORCHESTRATOR, s, steps)
    ensures Orphaned(Final(ORCHESTRATOR, s, steps), w) <==> Orphaned(s, w) || WorkerLost(w) in steps
    ensures Orphaned(s, w) ==> Get(Final(ORCHESTRATOR, s, steps).started, w) == Get(s.started, w)
    decreases steps
  {
    if steps == [] {
    } else {
      assert WalletInv(s, w);
      OrphanedStepExact(s, steps[0], w);
      StepKeeps(s, steps[0]);
      OrphanedAlong(Apply(s, steps[0]), steps[1..], w);
      assert steps == [steps[0]] + steps[1..];
    }
  }

  /** In every run, a wallet counts as active without a worker exactly when a worker of it was lost; from then on it
      stays so and is never started again. */
  lemma OrphanedForGood(steps: seq<Step>, more: seq<Step>, w: Wallet)
    requires Valid(ORCHESTRATOR, BOOT, steps) && Valid(ORCHESTRATOR, Final(ORCHESTRATOR, BOOT, steps), more)
    ensures var s, t := Final(ORCHESTRATOR, BOOT, steps), Final(ORCHESTRATOR, Final(ORCHESTRATOR, BOOT, steps), more);
            && (Orphaned(s, w) <==> WorkerLost(w) in steps)
            && (Orphaned(s, w) ==> Orphaned(t, w) && Get(t.started, w) == Get(s.started, w))
  {
    assert Inv(BOOT);
    OrphanedAlong(BOOT, steps, w);
    Reachable(steps);
    OrphanedAlong(Final(ORCHESTRATOR, BOOT, steps), more, w);
  }

  /** Both misfortunes can strike any wallet, with its first worker. */
  lemma BothReached(start: State, w: Wallet)
    requires start == BOOT
    ensures var steps := [SpawnRequest(w, true), WorkerLost(w)];
            Valid(ORCHESTRATOR, start, steps) && Orphaned(Final(ORCHESTRATOR, start, steps), w)
    ensures var steps := [SpawnRequest(w, true), WorkerExit(w), TimerFires(w, false)];
            Valid(ORCHESTRATOR, start, steps) && Stranded(Final(ORCHESTRATOR, start, steps), w)
  {
    var one := Advance(ORCHESTRATOR, start, [], SpawnRequest(w, true));
    var lost := Advance(ORCHESTRATOR, start, one, WorkerLost(w));
    var two := Advance(ORCHESTRATOR, start, one, WorkerExit(w));
    var three := Advance(ORCHESTRATOR, start, two, TimerFires(w, false));
    assert lost == [SpawnRequest(w, true), WorkerLost(w)];
    assert three == [SpawnRequest(w, true), WorkerExit(w), TimerFires(w, false)];
  }

  // ---- The loop's handlers, in place ----

  /** What a handler asks of the environment. */
  datatype Effect = Nothing | StartWorker | StartTimer(seconds: nat) | HaltWallet

  /** The environment of t is that of s with the effect carried out. */
  predicate CarriedOut(effect: Effect, s: State, t: State, w: Wallet)
  {
    match effect
    case Nothing => t.live == s.live && t.timers == s.timers && t.books.permanentlySkipped == s.books.permanentlySkipped
    case StartWorker => t.live == s.live + multiset{w} && t.timers == s.timers
    case StartTimer(_) => t.live == s.live && t.timers == s.timers + multiset{w}
    case HaltWallet =>
      t.live == s.live && t.timers == s.timers && w in t.books.permanentlySkipped && w !in s.books.permanentlySkipped
  }

  class Loop {
    var activeIds: set<Wallet>
    var inBackoff: set<Wallet>
    var permanentlySkipped: set<Wallet>
    var runtimeFails: map<Wallet, nat>
    var buildFails: map<Wallet, nat>

    constructor ()
      ensures Shows(BOOT)
    {
      activeIds, inBackoff, permanentlySkipped, runtimeFails, buildFails := {}, {}, {}, map[], map[];
    }

    function Value(): Books
      reads this
    {
      Books(activeIds, inBackoff, permanentlySkipped, runtimeFails, buildFails)
    }

    ghost predicate Shows(s: State)
      reads this
    {
      s.books == Value()
    }

    /** Build a worker and start it; the third failed build in a row halts the wallet. */
    method Spawn(w: Wallet, built: bool) returns (effect: Effect)
      modifies this`activeIds, this`buildFails, this`permanentlySkipped
      ensures Value() == SpawnEntry(old(Value()), w, built)
      ensures effect == if built then StartWorker
                        else if Get(old(buildFails), w) + 1 >= MAX_RESTART_ATTEMPTS then HaltWallet else Nothing
    {
      if built {
        buildFails := buildFails - {w};
        activeIds := activeIds + {w};
        return StartWorker;
      }
      var attempts := Get(buildFails, w) + 1;
      buildFails := buildFails[w := attempts];
      if attempts >= MAX_RESTART_ATTEMPTS {
        permanentlySkipped := permanentlySkipped + {w};
        return HaltWallet;
      }
      return Nothing;
    }

    /** A restart message, in any state the loop can be in: it is never dropped, so a worker starts whenever one is built. */
    method HandleRestart(w: Wallet, built: bool, ghost s: State) returns (effect: Effect)
      requires Inv(s) && Shows(s) && Enabled(s, Restart(w, built))
      modifies this
      ensures var t := Apply(s, Restart(w, built)); Shows(t) && Inv(t) && CarriedOut(effect, s, t, w)
      ensures effect == StartWorker <==> built
      ensures effect == HaltWallet <==> !built && Get(s.books.buildFails, w) == 2
    {
      assert WalletInv(s, w);
      StepKeeps(s, Restart(w, built));
      inBackoff := inBackoff - {w};
      if w in activeIds || w in permanentlySkipped {
        return Nothing;
      }
      effect := Spawn(w, built);
    }

    /** A spawn request: a worker starts only for a wallet that has neither worker nor timer nor restart message. */
    method HandleSpawn(w: Wallet, built: bool, ghost s: State) returns (effect: Effect)
      requires Inv(s) && Shows(s)
      modifies this
      ensures var t := Apply(s, SpawnRequest(w, built)); Shows(t) && Inv(t) && CarriedOut(effect, s, t, w)
      ensures var idle := w !in s.books.activeIds && w !in s.books.inBackoff && w !in s.books.permanentlySkipped;
              (effect == StartWorker <==> built && idle) && (effect == HaltWallet <==> !built && idle && Get(s.books.buildFails, w) == 2)
      ensures effect == StartWorker ==> s.live[w] == 0 && s.timers[w] + s.restarts[w] == 0
    {
      assert WalletInv(s, w);
      StepKeeps(s, SpawnRequest(w, built));
      if w in activeIds || w in inBackoff || w in permanentlySkipped {
        return Nothing;
      }
      effect := Spawn(w, built);
    }

    /** A worker's exit: the n-th worker of a wallet is followed by a timer of 2^n seconds, the third by its halt. */
    method HandleExit(w: Wallet, ghost s: State) returns (effect: Effect)
      requires Inv(s) && Shows(s) && Enabled(s, WorkerExit(w))
      modifies this
      ensures var t := Apply(s, WorkerExit(w)); Shows(t) && Inv(t) && CarriedOut(effect, s.(live := s.live - multiset{w}), t, w)
      ensures var n := Get(s.started, w);
              1 <= n <= 3 && effect == if n == 1 then StartTimer(2) else if n == 2 then StartTimer(4) else HaltWallet
    {
      assert WalletInv(s, w);
      StepKeeps(s, WorkerExit(w));
      activeIds := activeIds - {w};
      var attempts := Get(runtimeFails, w) + 1;
      runtimeFails := runtimeFails[w := attempts];
      if attempts >= MAX_RESTART_ATTEMPTS {
        permanentlySkipped := permanentlySkipped + {w};
        return HaltWallet;
      }
      inBackoff := inBackoff + {w};
      effect := StartTimer(Pow2(attempts));
    }
  }
}

/** The 60 second window: when two submissions of one key lie more than the retention period apart.

  The cleaner runs at will, handlers may be arbitrarily slow, processes crash, statements fail.  A claim on a
  key is a reservation that may still execute, or a submission.  While its retention period lasts a claim is
  protected by its own row, unless a release deletes the row of somebody else. */
module Retention {
  import opened Basics
  import opened Runs
  import opened SubmitProtocol
  import opened SubmitSafety

  /** `Prompt`: an applied release comes within the retention period of its handler's reservation.
      `Harmless`: an applied release finds no claim of its key within the retention period. */
  datatype Care = Prompt | Harmless

  datatype Claim = Claim(key: string, handler: nat, at: real)

  /** In `Prompt` a reservation that failed still counts until it is released. */
  predicate Waiting(care: Care, me: Handler)
  {
    me.key != "" && (me.pc == Executing || (care == Prompt && (me.pc == DroppingEntry || me.pc == ReleasingRow)))
  }

  ghost predicate Claimed(s: System, c: Claim)
  {
    exists e :: e in s.log && Claim(e.key, e.handler, e.reservedAt) == c
  }

  ghost predicate Claims(care: Care, s: System, c: Claim)
  {
    c.key != "" &&
    ((At(s, c.handler) && Waiting(care, s.handlers[c.handler]) &&
      s.handlers[c.handler].key == c.key && s.handlers[c.handler].reservedAt == c.at) || Claimed(s, c))
  }

  predicate Fresh(s: System, at: real)
  {
    s.now - at <= TTL
  }

  predicate Protected(s: System, c: Claim)
  {
    c.key in s.table && s.table[c.key].holder == c.handler && s.table[c.key].createdAt == c.at
  }

  predicate Apart(a: real, b: real)
  {
    TTL < a - b || TTL < b - a
  }

  // ---- The regimes ----

  ghost predicate FreshClaim(s: System, key: string)
  {
    exists c :: Claims(Harmless, s, c) && c.key == key && Fresh(s, c.at)
  }

  ghost predicate Careful(care: Care, s: System, step: Step)
  {
    step.ReleaseRow? && step.applied && At(s, step.h) ==>
      match care
      case Prompt => Fresh(s, s.handlers[step.h].reservedAt)
      case Harmless => !FreshClaim(s, s.handlers[step.h].key)
  }

  ghost function Retaining(care: Care): Machine<System, Step>
  {
    Machine((s: System, step: Step) => Enabled(s, step) && Careful(care, s, step), (s: System, step: Step) => Apply(s, step))
  }

  // ---- The invariant ----

  ghost predicate ClaimsProtected(care: Care, s: System)
  {
    forall c | Claims(care, s, c) :: c.at <= s.now && (Fresh(s, c.at) ==> Protected(s, c))
  }

  ghost predicate ClaimsApart(care: Care, s: System)
  {
    forall c, d | Claims(care, s, c) && Claims(care, s, d) && c.key == d.key && c != d :: Apart(c.at, d.at)
  }

  ghost predicate LogSettled(s: System)
  {
    forall e | e in s.log :: e.handler in s.handlers && Settled(s.handlers[e.handler].pc)
  }

  ghost predicate LogDistinct(s: System)
  {
    forall i, j | 0 <= i < j < |s.log| :: s.log[i].handler != s.log[j].handler
  }

  ghost predicate Kept(care: Care, s: System)
  {
    ClaimsProtected(care, s) && ClaimsApart(care, s) && LogSettled(s) && LogDistinct(s)
  }

  // ---- Every step keeps it ----

  /** No claim is new; those still fresh keep their rows. */
  ghost predicate ClaimsFade(care: Care, s: System, t: System)
  {
    && s.now <= t.now
    && forall c | Claims(care, t, c) :: Claims(care, s, c) && (Fresh(t, c.at) ==> Protected(t, c))
  }

  lemma FadeKeeps(care: Care, s: System, t: System)
    requires ClaimsProtected(care, s) && ClaimsApart(care, s) && ClaimsFade(care, s, t)
    ensures ClaimsProtected(care, t) && ClaimsApart(care, t)
  {
  }

  /** Rows within their retention period survive with holder and time. */
  predicate RowsSurvive(s: System, t: System)
  {
    forall k | k in s.table && Fresh(t, s.table[k].createdAt) ::
      k in t.table && t.table[k].holder == s.table[k].holder && t.table[k].createdAt == s.table[k].createdAt
  }

  /** No handler starts waiting, settled ones stay settled, and the log is the same. */
  predicate Quiet(care: Care, s: System, t: System)
  {
    && t.log == s.log && s.now <= t.now && s.handlers.Keys <= t.handlers.Keys
    && forall h | h in t.handlers ::
         if h in s.handlers then
           var before, after := s.handlers[h], t.handlers[h];
           (Waiting(care, after) ==> Waiting(care, before) && before.key == after.key && before.reservedAt == after.reservedAt) &&
           (Settled(before.pc) ==> Settled(after.pc))
         else
           !Waiting(care, t.handlers[h])
  }

  lemma QuietClaims(care: Care, s: System, t: System, c: Claim)
    requires Quiet(care, s, t) && Claims(care, t, c)
    ensures Claims(care, s, c)
  {
  }

  lemma QuietKeeps(care: Care, s: System, t: System)
    requires Kept(care, s) && Quiet(care, s, t) && RowsSurvive(s, t)
    ensures Kept(care, t)
  {
    forall c | Claims(care, t, c)
      ensures Claims(care, s, c) && (Fresh(t, c.at) ==> Protected(t, c))
    {
      QuietClaims(care, s, t, c);
    }
    FadeKeeps(care, s, t);
  }

  predicate Wins(s: System, step: Step)
  {
    step.ReserveRow? && step.io == Ok && At(s, step.h) && s.handlers[step.h].key !in s.table
  }

  predicate IsQuiet(s: System, step: Step)
  {
    !Wins(s, step) && !step.SubmitOk? && !(step.ReleaseRow? && step.applied)
  }

  lemma QuietMover(care: Care, s: System, step: Step)
    requires Enabled(s, step) && IsQuiet(s, step) && !step.Arrive? && !step.Crash? && !step.Tick? && !step.Cleanup?
    ensures var t := Apply(s, step);
            t.log == s.log && At(t, step.h) &&
            var before, after := s.handlers[step.h], t.handlers[step.h];
            (Waiting(care, after) ==> Waiting(care, before) && before.reservedAt == after.reservedAt) &&
            (Settled(before.pc) ==> Settled(after.pc))
  {
    OnlySubmitsLog(s, step);
    OneMoves(s, step);
    if step.ReserveRow? {
      QuietReserve(s, step.h, step.io);
    } else {
      QuietOther(care, s, step);
    }
  }

  lemma QuietReserve(s: System, h: nat, io: Io)
    requires Enabled(s, ReserveRow(h, io)) && IsQuiet(s, ReserveRow(h, io))
    ensures var t := Apply(s, ReserveRow(h, io)); At(t, h) && t.handlers[h].pc.Abandoning?
  {
  }

  lemma QuietOther(care: Care, s: System, step: Step)
    requires Enabled(s, step) && IsQuiet(s, step) && !step.Arrive? && !step.Crash? && !step.Tick? && !step.Cleanup?
    requires !step.ReserveRow?
    ensures var t := Apply(s, step);
            At(t, step.h) &&
            var before, after := s.handlers[step.h], t.handlers[step.h];
            before.reservedAt == after.reservedAt && (Waiting(care, after) ==> Waiting(care, before)) &&
            (Settled(before.pc) ==> Settled(after.pc))
  {
  }

  lemma QuietSteps(care: Care, s: System, step: Step)
    requires Enabled(s, step) && IsQuiet(s, step)
    ensures Quiet(care, s, Apply(s, step))
  {
    if !step.Arrive? && !step.Crash? && !step.Tick? && !step.Cleanup? {
      OneMoves(s, step);
      QuietMover(care, s, step);
    }
  }

  lemma QuietRows(s: System, step: Step)
    requires Enabled(s, step) && IsQuiet(s, step)
    ensures RowsSurvive(s, Apply(s, step))
  {
    if IsCalm(step) {
      CalmSteps(s, step);
    }
  }

  /** A submission turns a waiting claim into a logged one. */
  lemma SubmitClaims(care: Care, s: System, h: nat, id: string, c: Claim)
    requires Enabled(s, SubmitOk(h, id)) && Claims(care, Apply(s, SubmitOk(h, id)), c)
    ensures Claims(care, s, c)
  {
    var t := Apply(s, SubmitOk(h, id));
    if Claimed(t, c) {
      var e :| e in t.log && Claim(e.key, e.handler, e.reservedAt) == c;
      assert e in s.log || e.handler == h;
    }
  }

  lemma SubmitKept(care: Care, s: System, h: nat, id: string)
    requires Kept(care, s) && Enabled(s, SubmitOk(h, id))
    ensures Kept(care, Apply(s, SubmitOk(h, id)))
  {
    var t := Apply(s, SubmitOk(h, id));
    forall c | Claims(care, t, c)
      ensures Claims(care, s, c) && (Fresh(t, c.at) ==> Protected(t, c))
    {
      SubmitClaims(care, s, h, id, c);
    }
    FadeKeeps(care, s, t);
    SubmitLog(s, h, id);
  }

  lemma SubmitLog(s: System, h: nat, id: string)
    requires LogSettled(s) && LogDistinct(s) && Enabled(s, SubmitOk(h, id))
    ensures LogSettled(Apply(s, SubmitOk(h, id))) && LogDistinct(Apply(s, SubmitOk(h, id)))
  {
    assert forall i | 0 <= i < |s.log| :: s.log[i] in s.log;
  }

  /** A new reservation: every other claim of its key has outlived its retention period, for it lacks its row. */
  lemma WinKept(care: Care, s: System, h: nat)
    requires Kept(care, s) && Enabled(s, ReserveRow(h, Ok)) && Wins(s, ReserveRow(h, Ok))
    ensures Kept(care, Apply(s, ReserveRow(h, Ok)))
  {
    var t, key := Apply(s, ReserveRow(h, Ok)), s.handlers[h].key;
    forall c | Claims(care, t, c)
      ensures c == Claim(key, h, s.now) || (Claims(care, s, c) && c.handler != h)
    {
      WinClaims(care, s, h, c);
    }
    assert t.table == s.table[key := Row("", s.now, h)] && t.now == s.now;
    assert forall c | Claims(care, s, c) && c.key == key :: !Fresh(s, c.at);
  }

  lemma WinClaims(care: Care, s: System, h: nat, c: Claim)
    requires LogSettled(s) && Enabled(s, ReserveRow(h, Ok)) && Wins(s, ReserveRow(h, Ok))
    requires Claims(care, Apply(s, ReserveRow(h, Ok)), c)
    ensures c == Claim(s.handlers[h].key, h, s.now) || (Claims(care, s, c) && c.handler != h)
  {
    if Claimed(s, c) {
      var e :| e in s.log && Claim(e.key, e.handler, e.reservedAt) == c;
      assert Settled(s.handlers[e.handler].pc);
    }
  }

  lemma ReleaseKept(care: Care, s: System, h: nat)
    requires Kept(care, s) && Enabled(s, ReleaseRow(h, true)) && Careful(care, s, ReleaseRow(h, true))
    ensures Kept(care, Apply(s, ReleaseRow(h, true)))
  {
    var t, key := Apply(s, ReleaseRow(h, true)), s.handlers[h].key;
    forall c | Claims(care, t, c)
      ensures Claims(care, s, c) && c.handler != h
    {
      ReleaseClaims(care, s, h, c);
    }
    forall c | Claims(care, t, c) && Fresh(t, c.at)
      ensures c.key != key
    {
      ReleasedIsNobodys(care, s, h, c);
    }
    FadeKeeps(care, s, t);
  }

  lemma ReleaseClaims(care: Care, s: System, h: nat, c: Claim)
    requires LogSettled(s) && Enabled(s, ReleaseRow(h, true)) && Claims(care, Apply(s, ReleaseRow(h, true)), c)
    ensures Claims(care, s, c) && c.handler != h
  {
    if Claimed(s, c) {
      var e :| e in s.log && Claim(e.key, e.handler, e.reservedAt) == c;
      assert Settled(s.handlers[e.handler].pc);
    }
  }

  /** In time, the row is the releasing handler's own; otherwise the release was allowed only where nobody needs it. */
  lemma ReleasedIsNobodys(care: Care, s: System, h: nat, c: Claim)
    requires ClaimsProtected(care, s) && Enabled(s, ReleaseRow(h, true)) && Careful(care, s, ReleaseRow(h, true))
    requires Claims(care, s, c) && c.handler != h && Fresh(s, c.at)
    ensures c.key != s.handlers[h].key
  {
    if care == Prompt && s.handlers[h].key != "" {
      OwnRow(s, h);
    }
  }

  lemma OwnRow(s: System, h: nat)
    requires ClaimsProtected(Prompt, s) && Enabled(s, ReleaseRow(h, true)) && s.handlers[h].key != ""
    requires Fresh(s, s.handlers[h].reservedAt)
    ensures Protected(s, Claim(s.handlers[h].key, h, s.handlers[h].reservedAt))
  {
    assert Claims(Prompt, s, Claim(s.handlers[h].key, h, s.handlers[h].reservedAt));
  }

  lemma StepKept(care: Care, s: System, step: Step)
    requires Kept(care, s) && Enabled(s, step) && Careful(care, s, step)
    ensures Kept(care, Apply(s, step))
  {
    if Wins(s, step) {
      WinKept(care, s, step.h);
    } else if step.SubmitOk? {
      SubmitKept(care, s, step.h, step.orderId);
    } else if step.ReleaseRow? && step.applied {
      ReleaseKept(care, s, step.h);
    } else {
      QuietSteps(care, s, step);
      QuietRows(s, step);
      QuietKeeps(care, s, Apply(s, step));
    }
  }

  // ---- The window ----

  ghost predicate AllApart(log: seq<Submission>)
  {
    forall i, j | 0 <= i < |log| && 0 <= j < |log| && i != j && log[i].key == log[j].key && log[i].key != "" ::
      Apart(log[i].reservedAt, log[j].reservedAt)
  }

  lemma KeptApart(care: Care, s: System)
    requires Kept(care, s)
    ensures AllApart(s.log)
  {
    forall i, j | 0 <= i < |s.log| && 0 <= j < |s.log| && i != j && s.log[i].key == s.log[j].key && s.log[i].key != ""
      ensures Apart(s.log[i].reservedAt, s.log[j].reservedAt)
    {
      var c := Claim(s.log[i].key, s.log[i].handler, s.log[i].reservedAt);
      var d := Claim(s.log[j].key, s.log[j].handler, s.log[j].reservedAt);
      assert s.log[i] in s.log && s.log[j] in s.log;
      assert Claims(care, s, c) && Claims(care, s, d);
    }
  }

  lemma RunKept(care: Care, s: System, steps: seq<Step>)
    requires Kept(care, s) && Valid(Retaining(care), s, steps)
    ensures Kept(care, Final(Retaining(care), s, steps))
  {
    var m := Retaining(care);
    forall t, l | Kept(care, t) && m.enabled(t, l)
      ensures Kept(care, m.apply(t, l))
    {
      StepKept(care, t, l);
    }
    Preserved(m, (t: System) => Kept(care, t), s, steps);
  }

  /** However slow handlers are and whenever the cleaner runs: if every applied release comes within the retention
      period of its handler's reservation, or finds no claim within it, two submissions of one key were reserved
      more than the retention period apart. */
  lemma RetentionApart(care: Care, steps: seq<Step>, i: nat, j: nat)
    requires Valid(Retaining(care), BOOT, steps)
    requires var log := Final(Retaining(care), BOOT, steps).log;
             i < |log| && j < |log| && i != j && log[i].key == log[j].key && log[i].key != ""
    ensures var log := Final(Retaining(care), BOOT, steps).log;
            60.0 < log[i].reservedAt - log[j].reservedAt || 60.0 < log[j].reservedAt - log[i].reservedAt
  {
    RunKept(care, BOOT, steps);
    KeptApart(care, Final(Retaining(care), BOOT, steps));
  }

  /** Where releases are prompt, however slow handlers are otherwise, each finds its own row. */
  lemma PromptReleaseIsOwn(steps: seq<Step>, h: nat)
    requires Valid(Retaining(Prompt), BOOT, steps)
    requires var s := Final(Retaining(Prompt), BOOT, steps);
             Enabled(s, ReleaseRow(h, true)) && s.handlers[h].key != "" && Fresh(s, s.handlers[h].reservedAt)
    ensures var s := Final(Retaining(Prompt), BOOT, steps);
            Protected(s, Claim(s.handlers[h].key, h, s.handlers[h].reservedAt))
  {
    RunKept(Prompt, BOOT, steps);
    OwnRow(Final(Retaining(Prompt), BOOT, steps), h);
  }

  // ---- A release that deletes a row still needed ----

  /** Every continuation of harmless releases keeps all submissions apart. */
  ghost predicate StaysApart(s: System)
  {
    forall more | Valid(Retaining(Harmless), s, more) :: AllApart(Final(Retaining(Harmless), s, more).log)
  }

  lemma ApartFrom(s: System)
    requires Kept(Harmless, s)
    ensures StaysApart(s)
  {
    forall more | Valid(Retaining(Harmless), s, more)
      ensures AllApart(Final(Retaining(Harmless), s, more).log)
    {
      RunKept(Harmless, s, more);
      KeptApart(Harmless, Final(Retaining(Harmless), s, more));
    }
  }

  /** In every state such runs reach, an applied release keeps the submissions apart in all continuations
      exactly when it finds no claim of its key within the retention period. */
  lemma ReleaseExact(s: System, h: nat)
    requires Kept(Harmless, s) && Enabled(s, ReleaseRow(h, true))
    ensures StaysApart(Apply(s, ReleaseRow(h, true))) <==> !FreshClaim(s, s.handlers[h].key)
  {
    var r := Apply(s, ReleaseRow(h, true));
    if FreshClaim(s, s.handlers[h].key) {
      var c :| Claims(Harmless, s, c) && c.key == s.handlers[h].key && Fresh(s, c.at);
      ClaimSurvives(s, h, c);
      var more := SecondTaker(r, c);
    } else {
      StepKept(Harmless, s, ReleaseRow(h, true));
      ApartFrom(r);
    }
  }

  lemma ClaimSurvives(s: System, h: nat, c: Claim)
    requires Kept(Harmless, s) && Enabled(s, ReleaseRow(h, true)) && Claims(Harmless, s, c) && c.key == s.handlers[h].key
    ensures var r := Apply(s, ReleaseRow(h, true)); Claims(Harmless, r, c) && c.key !in r.table && r.now == s.now && c.at <= s.now
  {
    assert Claimed(s, c) ==> Claimed(Apply(s, ReleaseRow(h, true)), c);
  }

  /** With the row of a fresh claim gone, a new request takes the key beside it. */
  lemma SecondTaker(s: System, c: Claim) returns (steps: seq<Step>)
    requires Claims(Harmless, s, c) && c.key !in s.table && c.at <= s.now && Fresh(s, c.at)
    ensures Valid(Retaining(Harmless), s, steps) && !AllApart(Final(Retaining(Harmless), s, steps).log)
  {
    var m := Retaining(Harmless);
    var g := Unused(s.handlers.Keys + {c.handler});
    var p := Unused(s.caches.Keys);
    steps := ReserveAfresh(s, g, p, c.key);
    Carefully(Harmless, s, steps);
    var t := Final(m, s, steps);
    var more := BothSubmit(s, t, c, g);
    Concat(m, s, steps, more);
    steps := steps + more;
  }

  lemma BothSubmit(s: System, t: System, c: Claim, g: nat) returns (steps: seq<Step>)
    requires Claims(Harmless, s, c) && c.at <= s.now && Fresh(s, c.at) && g !in s.handlers && g != c.handler
    requires t.log == s.log && At(t, g) && t.handlers == s.handlers[g := t.handlers[g]]
    requires t.handlers[g].pc == Executing && t.handlers[g].key == c.key && t.handlers[g].reservedAt == s.now
    ensures Valid(Retaining(Harmless), t, steps) && !AllApart(Final(Retaining(Harmless), t, steps).log)
  {
    var m := Retaining(Harmless);
    if Claimed(s, c) {
      steps := Advance(m, t, [], SubmitOk(g, "b"));
      TooClose(s, Final(m, t, steps), c, g);
    } else {
      steps := Advance(m, t, [], SubmitOk(c.handler, "a"));
      var u := Final(m, t, steps);
      assert u.log[|s.log|] in u.log && Claimed(u, c);
      steps := Advance(m, t, steps, SubmitOk(g, "b"));
      TooClose(u, Final(m, t, steps), c, g);
    }
  }

  lemma TooClose(s: System, t: System, c: Claim, g: nat)
    requires Claimed(s, c) && c.key != "" && c.handler != g
    requires exists now | c.at <= now <= c.at + TTL :: t.log == s.log + [Submission(c.key, g, "b", now)]
    ensures !AllApart(t.log)
  {
    var e :| e in s.log && Claim(e.key, e.handler, e.reservedAt) == c;
    var i :| 0 <= i < |s.log| && s.log[i] == e;
    assert t.log[i] == e && t.log[|s.log|].handler == g;
    assert !Apart(t.log[i].reservedAt, t.log[|s.log|].reservedAt);
  }

  /** A run without releases is one of either regime. */
  lemma {:induction false} Carefully(care: Care, s: System, steps: seq<Step>)
    requires Valid(Protocol(Anything), s, steps) && forall l | l in steps :: !l.ReleaseRow?
    ensures Valid(Retaining(care), s, steps) && Final(Retaining(care), s, steps) == Final(Protocol(Anything), s, steps)
    decreases steps
  {
    if steps == [] {
    } else {
      assert steps[0] in steps && forall l | l in steps[1..] :: l in steps;
      Carefully(care, Apply(s, steps[0]), steps[1..]);
    }
  }

  /** A handler that overstays between failing and releasing makes its release such a one: the key is taken twice
      within one retention period, at the very same time. */
  lemma StaleReleaseBreaks(key: string) returns (steps: seq<Step>, h: nat)
    requires key != ""
    ensures Valid(Retaining(Harmless), BOOT, steps) && Valid(Protocol(Anything), BOOT, steps)
    ensures var s := Final(Retaining(Harmless), BOOT, steps);
            Enabled(s, ReleaseRow(h, true)) && s.handlers[h].key == key && !StaysApart(Apply(s, ReleaseRow(h, true)))
  {
    h := 0;
    steps := StaleRelease(BOOT, key);
    Carefully(Harmless, BOOT, steps);
    var s := Final(Retaining(Harmless), BOOT, steps);
    RunKept(Harmless, BOOT, steps);
    assert Claims(Harmless, s, Claim(key, 1, 61.0));
    ReleaseExact(s, 0);
  }

  /** Handler 0 fails and overstays, the cleaner takes its row, and handler 1 reserves the key. */
  lemma StaleRelease(start: System, key: string) returns (steps: seq<Step>)
    requires start == BOOT && key != ""
    ensures Valid(Protocol(Anything), start, steps) && forall l | l in steps :: !l.ReleaseRow?
    ensures var s := Final(Protocol(Anything), start, steps);
            && s.handlers == map[0 := Handler(0, key, ReleasingRow, 0.0), 1 := Handler(1, key, Executing, 61.0)]
            && s.now == 61.0
  {
    var m := Protocol(Anything);
    steps := Overstaying(start, 0, 0, key);
    steps := Advance(m, start, steps, Cleanup);
    var more := OvertakeAndFail(Final(m, start, steps), key);
    Concat(m, start, steps, more);
    steps := steps + more;
  }

  lemma OvertakeAndFail(s: System, key: string) returns (steps: seq<Step>)
    requires key != "" && s.handlers == map[0 := Handler(0, key, Executing, 0.0)] && s.caches.Keys == {0} && key !in s.table
    ensures Valid(Protocol(Anything), s, steps) && forall l | l in steps :: !l.ReleaseRow?
    ensures var r := Final(Protocol(Anything), s, steps);
            && r.handlers == map[0 := Handler(0, key, ReleasingRow, 0.0), 1 := Handler(1, key, Executing, s.now)]
            && r.now == s.now
  {
    var m := Protocol(Anything);
    steps := ReserveAfresh(s, 1, 1, key);
    var failed := FailAndDrop(Final(m, s, steps), 0, key);
    Concat(m, s, steps, failed);
    steps := steps + failed;
  }

  lemma FailAndDrop(s: System, h: nat, key: string) returns (steps: seq<Step>)
    requires key != "" && At(s, h) && s.handlers[h].pc == Executing && s.handlers[h].key == key
    ensures Valid(Protocol(Anything), s, steps) && forall l | l in steps :: !l.ReleaseRow?
    ensures var r := Final(Protocol(Anything), s, steps);
            r.handlers == s.handlers[h := s.handlers[h].(pc := ReleasingRow)] && r.now == s.now
  {
    steps := Advance(Protocol(Anything), s, [], SubmitErr(h));
    steps := Advance(Protocol(Anything), s, steps, DropEntry(h));
  }

  // ---- Past the window ----

  /** The window does end: once a key has no row within its retention period, prompt handlers and the cleaner suffice
      for another submission of it. */
  lemma SubmittedAgain(s: System, key: string, id: string) returns (steps: seq<Step>, g: nat)
    requires key != "" && id != "" && (key in s.table ==> 60.0 < s.now - s.table[key].createdAt)
    ensures Valid(Protocol(InTime), s, steps)
    ensures Final(Protocol(InTime), s, steps).log == s.log + [Submission(key, g, id, s.now)]
  {
    g := Unused(s.handlers.Keys);
    var p := Unused(s.caches.Keys);
    var m := Protocol(Anything);
    steps := Advance(m, s, [], Cleanup);
    var t := Final(m, s, steps);
    assert t == s.(table := Sweep(s.table, s.now));
    var more := ReserveAfresh(t, g, p, key);
    Concat(m, s, steps, more);
    steps := Advance(m, s, steps + more, SubmitOk(g, id));
    NoTimePasses(s, steps);
  }

  lemma {:induction false} NoTimePasses(s: System, steps: seq<Step>)
    requires Valid(Protocol(Anything), s, steps) && forall l | l in steps :: !l.Tick?
    ensures Valid(Protocol(InTime), s, steps) && Final(Protocol(InTime), s, steps) == Final(Protocol(Anything), s, steps)
    decreases steps
  {
    if steps == [] {
    } else {
      assert steps[0] in steps && forall l | l in steps[1..] :: l in steps;
      NoTimePasses(Apply(s, steps[0]), steps[1..]);
    }
  }
}

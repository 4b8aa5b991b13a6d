/** What one request answers and leaves behind when nobody else acts meanwhile, read off the two stores it met. */
module SubmitAnswers {
  import opened Basics
  import opened Runs
  import opened SubmitProtocol
  import opened SubmitHandler

  /** How far a request gets. */
  datatype Course =
    | Unfit                      // refused before anything is touched
    | Unkeyed                    // no deduplication asked for
    | Known(reply: Reply)        // a live cache entry
    | Unreachable                // the table could not be queried
    | Recovered(orderId: string) // a committed row
    | InFlight                   // an uncommitted row
    | Lost                       // the INSERT reported an error
    | Beaten                     // the INSERT found a row
    | Won                        // this request owns the key

  function TableCourse(rows: Table, key: string, env: Outcomes): Course
  {
    if !env.checkOk then Unreachable
    else if key in rows then if rows[key].orderId != "" then Recovered(rows[key].orderId) else InFlight
    else InsertCourse(rows, key, env)
  }

  function InsertCourse(rows: Table, key: string, env: Outcomes): Course
  {
    if env.reserveIo != Ok then Lost else if key in rows then Beaten else Won
  }

  /** The entries less than 60 seconds old. */
  function Young(entries: Cache, now: real): Cache
  {
    map k | k in entries && now - entries[k].recordedAt < 60.0 :: entries[k]
  }

  function CourseOf(entries: Cache, rows: Table, key: string, now: real, env: Outcomes): Course
  {
    var kept := Young(entries, now);
    if !env.wellFormed then Unfit
    else if key == "" then Unkeyed
    else if key in kept then Known(if kept[key].orderId != "" then FoundInMemory(kept[key].orderId) else Acknowledged)
    else TableCourse(rows, key, env)
  }

  function Answer(c: Course, env: Outcomes): Reply
  {
    match c
    case Unfit => Refused
    case Known(reply) => reply
    case Unreachable => Unavailable
    case Recovered(id) => FoundInTable(id)
    case InFlight => Acknowledged
    case Lost => Unavailable
    case Beaten => Acknowledged
    case _ => if env.submitted.Some? then Submitted(env.submitted.value) else Failed
  }

  /** Only a request in flight or with a known order id leaves an entry behind. */
  function EntriesAfter(entries: Cache, key: string, now: real, c: Course, env: Outcomes): Cache
  {
    var kept := Young(entries, now);
    match c
    case Unfit => entries
    case Unkeyed => entries
    case Recovered(id) => kept[key := Entry(id, now)]
    case InFlight => kept[key := Entry("", now)]
    case Won => if env.submitted.Some? then kept[key := Entry(env.submitted.value, now)] else kept
    case _ => kept
  }

  /** Only the request that owns the key, or an INSERT that applied although it failed, adds a row. */
  function RowsAfter(rows: Table, key: string, now: real, h: nat, c: Course, env: Outcomes): Table
  {
    match c
    case Lost => if env.reserveIo == AppliedButError && key !in rows then rows[key := Row("", now, h)] else rows
    case Won =>
      if env.submitted.Some? then rows[key := Row(if env.commitApplied then env.submitted.value else "", now, h)]
      else if env.releaseApplied then rows
      else rows[key := Row("", now, h)]
    case _ => rows
  }

  // ---- Runs in which only the handler moves ----

  predicate Alone(r: Regime, s: System, steps: seq<Step>, h: nat, env: Outcomes)
  {
    && Valid(Protocol(r), s, steps) && Dictated(steps, h, env) && (forall l | l in steps :: Moves(l, h)) && At(s, h)
    && var t := Final(Protocol(r), s, steps); At(t, h) && t.handlers[h].pc.Replied?
  }

  /** The run has ended with this reply and these stores. */
  predicate Left(r: Regime, s: System, steps: seq<Step>, h: nat, reply: Reply, entries: Cache, rows: Table)
    requires At(s, h)
  {
    var t := Final(Protocol(r), s, steps);
    At(t, h) && t.handlers[h].pc == Replied(reply) && CacheOf(t, s.handlers[h].process) == entries && t.table == rows
  }

  /** The next step is the handler's own, and the rest of the run is such a run again. */
  lemma Next(r: Regime, s: System, steps: seq<Step>, h: nat, env: Outcomes) returns (step: Step, rest: seq<Step>)
    requires Alone(r, s, steps, h, env) && !s.handlers[h].pc.Replied?
    ensures Enabled(s, step) && Moves(step, h) && Follows(env, step) && !step.Arrive?
    ensures Alone(r, Apply(s, step), rest, h, env) && Final(Protocol(r), s, steps) == Final(Protocol(r), Apply(s, step), rest)
    ensures Apply(s, step).handlers[h].key == s.handlers[h].key && Apply(s, step).handlers[h].process == s.handlers[h].process
    ensures Apply(s, step).now == s.now
  {
    step, rest := steps[0], steps[1..];
    assert step in steps && forall l | l in rest :: l in steps;
    KeepsIdentity(s, step, h);
  }

  lemma KeepsIdentity(s: System, step: Step, h: nat)
    requires At(s, h) && Enabled(s, step) && Moves(step, h)
    ensures var t := Apply(s, step);
            !step.Arrive? && At(t, h) && t.handlers[h].key == s.handlers[h].key && t.handlers[h].process == s.handlers[h].process &&
            t.now == s.now
  {
  }

  /** After the reply the handler moves no more. */
  lemma Done(r: Regime, s: System, steps: seq<Step>, h: nat, env: Outcomes, reply: Reply)
    requires Alone(r, s, steps, h, env) && s.handlers[h].pc == Replied(reply)
    ensures Left(r, s, steps, h, reply, CacheOf(s, s.handlers[h].process), s.table)
  {
    forall l | l in steps
      ensures !Enabled(s, l)
    {
      NoMoveAfterReply(s, l, h);
    }
  }

  lemma NoMoveAfterReply(s: System, step: Step, h: nat)
    requires At(s, h) && s.handlers[h].pc.Replied? && Moves(step, h)
    ensures !Enabled(s, step)
  {
  }

  lemma FromCommitting(r: Regime, s: System, steps: seq<Step>, h: nat, env: Outcomes, id: string)
    requires Alone(r, s, steps, h, env) && s.handlers[h].pc == CommittingRow(id)
    ensures Left(r, s, steps, h, Submitted(id), CacheOf(s, s.handlers[h].process),
                 if env.commitApplied then Commit(s.table, s.handlers[h].key, id) else s.table)
  {
    var step, rest := Next(r, s, steps, h, env);
    Done(r, Apply(s, step), rest, h, env, Submitted(id));
  }

  lemma FromCaching(r: Regime, s: System, steps: seq<Step>, h: nat, env: Outcomes, id: string)
    requires Alone(r, s, steps, h, env) && s.handlers[h].pc == CachingId(id)
    ensures var me := s.handlers[h];
            Left(r, s, steps, h, Submitted(id), Fill(CacheOf(s, me.process), me.key, id),
                 if env.commitApplied then Commit(s.table, me.key, id) else s.table)
  {
    var step, rest := Next(r, s, steps, h, env);
    FromCommitting(r, Apply(s, step), rest, h, env, id);
  }

  lemma FromReleasing(r: Regime, s: System, steps: seq<Step>, h: nat, env: Outcomes)
    requires Alone(r, s, steps, h, env) && s.handlers[h].pc == ReleasingRow
    ensures Left(r, s, steps, h, Failed, CacheOf(s, s.handlers[h].process),
                 if env.releaseApplied then s.table - {s.handlers[h].key} else s.table)
  {
    var step, rest := Next(r, s, steps, h, env);
    Done(r, Apply(s, step), rest, h, env, Failed);
  }

  lemma FromDropping(r: Regime, s: System, steps: seq<Step>, h: nat, env: Outcomes)
    requires Alone(r, s, steps, h, env) && s.handlers[h].pc == DroppingEntry
    ensures var me := s.handlers[h];
            Left(r, s, steps, h, Failed, CacheOf(s, me.process) - {me.key}, if env.releaseApplied then s.table - {me.key} else s.table)
  {
    var step, rest := Next(r, s, steps, h, env);
    FromReleasing(r, Apply(s, step), rest, h, env);
  }

  /** What handing the order over leaves of a cache and a table. */
  function EntriesAfterOrder(entries: Cache, key: string, env: Outcomes): Cache
  {
    if key == "" then entries
    else if env.submitted.Some? then Fill(entries, key, env.submitted.value)
    else entries - {key}
  }

  function RowsAfterOrder(rows: Table, key: string, env: Outcomes): Table
  {
    if key == "" then rows
    else if env.submitted.Some? then (if env.commitApplied then Commit(rows, key, env.submitted.value) else rows)
    else if env.releaseApplied then rows - {key} else rows
  }

  /** From handing the order over. */
  lemma FromExecuting(r: Regime, s: System, steps: seq<Step>, h: nat, env: Outcomes)
    requires Alone(r, s, steps, h, env) && s.handlers[h].pc == Executing
    ensures var me := s.handlers[h];
            Left(r, s, steps, h, Answer(Won, env), EntriesAfterOrder(CacheOf(s, me.process), me.key, env), RowsAfterOrder(s.table, me.key, env))
  {
    var step, rest := Next(r, s, steps, h, env);
    var t := Apply(s, step);
    if t.handlers[h].pc.Replied? {
      Done(r, t, rest, h, env, t.handlers[h].pc.reply);
    } else if step.SubmitOk? {
      FromCaching(r, t, rest, h, env, step.orderId);
    } else {
      FromDropping(r, t, rest, h, env);
    }
  }

  lemma FromAbandoning(r: Regime, s: System, steps: seq<Step>, h: nat, env: Outcomes, reply: Reply)
    requires Alone(r, s, steps, h, env) && s.handlers[h].pc == Abandoning(reply)
    ensures Left(r, s, steps, h, reply, CacheOf(s, s.handlers[h].process) - {s.handlers[h].key}, s.table)
  {
    var step, rest := Next(r, s, steps, h, env);
    Done(r, Apply(s, step), rest, h, env, reply);
  }

  lemma FromRecovering(r: Regime, s: System, steps: seq<Step>, h: nat, env: Outcomes, id: string)
    requires Alone(r, s, steps, h, env) && s.handlers[h].pc == Recovering(id)
    ensures Left(r, s, steps, h, FoundInTable(id), Fill(CacheOf(s, s.handlers[h].process), s.handlers[h].key, id), s.table)
  {
    var step, rest := Next(r, s, steps, h, env);
    Done(r, Apply(s, step), rest, h, env, FoundInTable(id));
  }

  /** What the table tier leaves of a cache that holds the placeholder. */
  function EntriesAfterTable(entries: Cache, key: string, c: Course, env: Outcomes): Cache
  {
    match c
    case Recovered(id) => Fill(entries, key, id)
    case InFlight => entries
    case Won => EntriesAfterOrder(entries, key, env)
    case _ => entries - {key}
  }

  /** From the INSERT on, whatever row it meets. */
  lemma FromReserving(r: Regime, s: System, steps: seq<Step>, h: nat, env: Outcomes)
    requires Alone(r, s, steps, h, env) && s.handlers[h].pc == Reserving && s.handlers[h].key != ""
    ensures var me := s.handlers[h];
            var c := InsertCourse(s.table, me.key, env);
            Left(r, s, steps, h, Answer(c, env), EntriesAfterTable(CacheOf(s, me.process), me.key, c, env),
                 RowsAfter(s.table, me.key, s.now, h, c, env))
  {
    var step, rest := Next(r, s, steps, h, env);
    var t := Apply(s, step);
    if t.handlers[h].pc == Executing {
      FromExecuting(r, t, rest, h, env);
      assert s.table[s.handlers[h].key := Row("", s.now, h)] - {s.handlers[h].key} == s.table;
    } else {
      FromAbandoning(r, t, rest, h, env, t.handlers[h].pc.reply);
    }
  }

  /** From the query on, whatever row it meets. */
  lemma FromChecking(r: Regime, s: System, steps: seq<Step>, h: nat, env: Outcomes)
    requires Alone(r, s, steps, h, env) && s.handlers[h].pc == Checking && s.handlers[h].key != ""
    ensures var me := s.handlers[h];
            var c := TableCourse(s.table, me.key, env);
            Left(r, s, steps, h, Answer(c, env), EntriesAfterTable(CacheOf(s, me.process), me.key, c, env),
                 RowsAfter(s.table, me.key, s.now, h, c, env))
  {
    var step, rest := Next(r, s, steps, h, env);
    var t := Apply(s, step);
    match t.handlers[h].pc
    case Abandoning(reply) => FromAbandoning(r, t, rest, h, env, reply);
    case Reserving => FromReserving(r, t, rest, h, env);
    case Recovering(id) => FromRecovering(r, t, rest, h, env, id);
    case Replied(reply) => Done(r, t, rest, h, env, reply);
  }

  lemma FromArrived(r: Regime, s: System, steps: seq<Step>, h: nat, env: Outcomes)
    requires Alone(r, s, steps, h, env) && s.handlers[h].pc == Arrived
    ensures var me := s.handlers[h];
            var c := CourseOf(CacheOf(s, me.process), s.table, me.key, s.now, env);
            Left(r, s, steps, h, Answer(c, env), EntriesAfter(CacheOf(s, me.process), me.key, s.now, c, env),
                 RowsAfter(s.table, me.key, s.now, h, c, env))
  {
    var step, rest := Next(r, s, steps, h, env);
    var t := Apply(s, step);
    if step.CheckCache? && s.handlers[h].key != "" {
      CacheTier(s, h);
    }
    match t.handlers[h].pc
    case Executing => FromExecuting(r, t, rest, h, env);
    case Replied(reply) => Done(r, t, rest, h, env, reply);
    case Checking =>
      FromChecking(r, t, rest, h, env);
      TierEffects(CacheOf(s, s.handlers[h].process), s.handlers[h].key, s.now, TableCourse(s.table, s.handlers[h].key, env), env);
  }

  lemma TierEffects(entries: Cache, key: string, now: real, c: Course, env: Outcomes)
    requires key != "" && key !in Young(entries, now) && !c.Unfit? && !c.Unkeyed? && !c.Known?
    ensures EntriesAfterTable(Young(entries, now)[key := Entry("", now)], key, c, env) == EntriesAfter(entries, key, now, c, env)
  {
    var kept := Young(entries, now);
    assert kept[key := Entry("", now)] - {key} == kept;
  }

  /** The lookup in the cache, from any state whatever the others did: a key entered less than 60 seconds ago is
      answered from memory, any other goes on to the table. */
  lemma CacheTier(s: System, h: nat)
    requires Enabled(s, CheckCache(h)) && s.handlers[h].key != ""
    ensures var me, t := s.handlers[h], Apply(s, CheckCache(h));
            var entries := CacheOf(s, me.process);
            && t.table == s.table
            && CacheOf(t, me.process) == Young(entries, s.now) + (if me.key in Young(entries, s.now) then map[] else map[me.key := Entry("", s.now)])
            && t.handlers[h].pc ==
               if me.key in entries && s.now - entries[me.key].recordedAt < 60.0
               then Replied(if entries[me.key].orderId != "" then FoundInMemory(entries[me.key].orderId) else Acknowledged)
               else Checking
  {
    assert Retain(CacheOf(s, s.handlers[h].process), s.now) == Young(CacheOf(s, s.handlers[h].process), s.now);
  }

  /** A request nobody disturbs: its reply, its process's cache and the table afterwards. */
  lemma Undisturbed(r: Regime, s: System, steps: seq<Step>, h: nat, process: nat, key: string, env: Outcomes)
    requires h !in s.handlers && steps != [] && steps[0] == Arrive(h, process, key)
    requires Valid(Protocol(r), s, steps) && Dictated(steps, h, env) && forall l | l in steps :: Moves(l, h)
    requires var t := Final(Protocol(r), s, steps); At(t, h) && t.handlers[h].pc.Replied?
    ensures var t := Final(Protocol(r), s, steps);
            var c := CourseOf(CacheOf(s, process), s.table, key, s.now, env);
            && t.handlers[h].pc.reply == Answer(c, env)
            && CacheOf(t, process) == EntriesAfter(CacheOf(s, process), key, s.now, c, env)
            && t.table == RowsAfter(s.table, key, s.now, h, c, env)
  {
    assert forall l | l in steps[1..] :: l in steps;
    FromArrived(r, Apply(s, steps[0]), steps[1..], h, env);
  }

  /** A duplicate within 60 seconds is answered from memory even when the table is unreachable; the table is not touched. */
  lemma DuplicateAnswered(r: Regime, s: System, steps: seq<Step>, h: nat, process: nat, key: string, env: Outcomes)
    requires h !in s.handlers && steps != [] && steps[0] == Arrive(h, process, key) && key != "" && env.wellFormed
    requires Valid(Protocol(r), s, steps) && Dictated(steps, h, env) && forall l | l in steps :: Moves(l, h)
    requires var t := Final(Protocol(r), s, steps); At(t, h) && t.handlers[h].pc.Replied?
    requires key in CacheOf(s, process) && s.now - CacheOf(s, process)[key].recordedAt < 60.0
    ensures var t, id := Final(Protocol(r), s, steps), CacheOf(s, process)[key].orderId;
            t.handlers[h].pc.reply == (if id != "" then FoundInMemory(id) else Acknowledged) && t.table == s.table
  {
    Undisturbed(r, s, steps, h, process, key, env);
  }

  /** One entered 60 seconds ago or more is never answered from memory: unless the table knows better, the order is handed over. */
  lemma ExpiredGoesOn(r: Regime, s: System, steps: seq<Step>, h: nat, process: nat, key: string, env: Outcomes)
    requires h !in s.handlers && steps != [] && steps[0] == Arrive(h, process, key) && key != "" && env.wellFormed
    requires Valid(Protocol(r), s, steps) && Dictated(steps, h, env) && forall l | l in steps :: Moves(l, h)
    requires var t := Final(Protocol(r), s, steps); At(t, h) && t.handlers[h].pc.Replied?
    requires key in CacheOf(s, process) ==> s.now - CacheOf(s, process)[key].recordedAt >= 60.0
    ensures var reply := Final(Protocol(r), s, steps).handlers[h].pc.reply;
            && !reply.FoundInMemory?
            && (env.checkOk && key !in s.table && env.reserveIo == Ok ==>
                  reply == if env.submitted.Some? then Submitted(env.submitted.value) else Failed)
  {
    Undisturbed(r, s, steps, h, process, key, env);
  }

  /** After a crash the next request for a committed key finds its order id in the table. */
  lemma CrashRecovered(r: Regime, s: System, steps: seq<Step>, h: nat, process: nat, key: string, env: Outcomes)
    requires h !in s.handlers && key != "" && env.wellFormed && env.checkOk && |steps| > 1
    requires steps[0] == Crash(process) && steps[1] == Arrive(h, process, key)
    requires Valid(Protocol(r), s, steps) && Dictated(steps, h, env) && forall l | l in steps[1..] :: Moves(l, h)
    requires var t := Final(Protocol(r), s, steps); At(t, h) && t.handlers[h].pc.Replied?
    requires key in s.table && s.table[key].orderId != ""
    ensures Final(Protocol(r), s, steps).handlers[h].pc.reply == FoundInTable(s.table[key].orderId)
  {
    assert forall l | l in steps[1..] :: l in steps;
    assert CacheOf(Apply(s, Crash(process)), process) == map[];
    Undisturbed(r, Apply(s, Crash(process)), steps[1..], h, process, key, env);
  }
}

/** `submit_order` as one process runs it: the cache behind its lock, the table behind its SQL
  statements, and the handler that drives both.  Between any two of its critical sections and statements
  everybody else may act: handlers of this and other processes, crashes elsewhere, the clock, the cleaner.
  Every execution of the handler is a run of the protocol, so the guarantees about runs are guarantees
  about this code. */
module SubmitHandler {
  import opened Basics
  import opened Runs
  import opened Interleaving
  import opened SubmitProtocol
  import SubmitSafety

  /** The per-process cache; each method is one critical section of its lock. */
  class KeyCache {
    var entries: Cache

    constructor ()
      ensures entries == map[]
    {
      entries := map[];
    }

    /** Forget entries of 60 seconds and more, then look the key up and reserve it when absent. */
    method CheckAndPlace(key: string, now: real) returns (found: Option<string>)
      modifies this
      ensures entries == Place(old(entries), key, now)
      ensures found == if key in old(entries) && now - old(entries)[key].recordedAt < 60.0 then Some(old(entries)[key].orderId) else None
      ensures forall k :: k in entries <==> k == key || (k in old(entries) && now - old(entries)[k].recordedAt < 60.0)
      ensures forall k | k in entries :: entries[k] == if k == key && found.None? then Entry("", now) else old(entries)[k]
    {
      entries := map k | k in entries && now - entries[k].recordedAt < TTL :: entries[k];
      if key in entries {
        found := Some(entries[key].orderId);
      } else {
        entries := entries[key := Entry("", now)];
        found := None;
      }
    }

    method SetOrderId(key: string, id: string)
      modifies this
      ensures entries == Fill(old(entries), key, id)
      ensures entries.Keys == old(entries).Keys
      ensures forall k | k in entries :: entries[k] == if k == key then old(entries)[k].(orderId := id) else old(entries)[k]
    {
      if key in entries {
        entries := entries[key := entries[key].(orderId := id)];
      }
    }

    method Remove(key: string)
      modifies this
      ensures entries == old(entries) - {key}
    {
      entries := entries - {key};
    }
  }

  /** The `idempotency_keys` table; each method is one statement, `ok`/`io` is what the database made of it. */
  class KeyTable {
    var rows: Table

    constructor ()
      ensures rows == map[]
    {
      rows := map[];
    }

    /** The row's order id, or `None` when there is no row; `success` is false when the query failed. */
    method Check(key: string, ok: bool) returns (success: bool, found: Option<string>)
      ensures success == ok
      ensures ok ==> found == if key in rows then Some(rows[key].orderId) else None
    {
      success := ok;
      found := None;
      if ok && key in rows {
        found := Some(rows[key].orderId);
      }
    }

    /** INSERT unless the key is taken; `won` tells whether this call created the row. */
    method Reserve(key: string, now: real, h: nat, io: Io) returns (success: bool, won: bool)
      modifies this
      ensures success == (io == Ok)
      ensures rows == if io == Error then old(rows) else SubmitProtocol.Reserve(old(rows), key, now, h)
      ensures rows == if io == Error || key in old(rows) then old(rows) else old(rows)[key := Row("", now, h)]
      ensures success ==> won == (key !in old(rows))
    {
      won := key !in rows;
      if io != Error && won {
        rows := rows[key := Row("", now, h)];
      }
      success := io == Ok;
    }

    method Commit(key: string, id: string, applied: bool)
      modifies this
      ensures rows == if applied then SubmitProtocol.Commit(old(rows), key, id) else old(rows)
      ensures rows.Keys == old(rows).Keys
      ensures forall k | k in rows :: rows[k] == if applied && k == key then old(rows)[k].(orderId := id) else old(rows)[k]
    {
      if applied && key in rows {
        rows := rows[key := rows[key].(orderId := id)];
      }
    }

    method Release(key: string, applied: bool)
      modifies this
      ensures rows == if applied then old(rows) - {key} else old(rows)
    {
      if applied {
        rows := rows - {key};
      }
    }
  }

  /** What the environment answers to one request. */
  datatype Outcomes = Outcomes(
    wellFormed: bool,            // not in demo mode, all fields parse
    checkOk: bool,
    reserveIo: Io,
    submitted: Option<string>,   // the order manager's answer
    commitApplied: bool,
    releaseApplied: bool)

  // ---- The steps of one request ----

  /** The step moves handler h. */
  predicate Moves(step: Step, h: nat)
  {
    !step.Crash? && !step.Tick? && !step.Cleanup? && step.h == h
  }

  /** The step's outcome is the one the environment answers with; the request is never dropped. */
  predicate Follows(env: Outcomes, step: Step)
  {
    match step
    case Refuse(_) => !env.wellFormed
    case CheckCache(_) => env.wellFormed
    case CheckTable(_, ok) => ok == env.checkOk
    case ReserveRow(_, io) => io == env.reserveIo
    case SubmitOk(_, id) => env.submitted == Some(id)
    case SubmitErr(_) => env.submitted == None
    case CommitRow(_, applied) => applied == env.commitApplied
    case ReleaseRow(_, applied) => applied == env.releaseApplied
    case DropRequest(_) => false
    case _ => true
  }

  predicate Dictated(steps: seq<Step>, h: nat, env: Outcomes)
  {
    forall l | l in steps :: Moves(l, h) ==> Follows(env, l)
  }

  /** A step of somebody else that leaves this request's process running. */
  predicate Foreign(step: Step, h: nat, process: nat)
  {
    !Moves(step, h) && step != Crash(process)
  }

  lemma ForeignKeeps(s: System, step: Step, h: nat)
    requires At(s, h) && Enabled(s, step) && Foreign(step, h, s.handlers[h].process)
    ensures At(Apply(s, step), h) && Apply(s, step).handlers[h] == s.handlers[h]
  {
  }

  class BotService {
    const process: nat
    const cache: KeyCache
    const table: KeyTable

    constructor (process: nat, table: KeyTable)
      ensures this.process == process && this.table == table && fresh(this.cache) && cache.entries == map[]
    {
      this.process := process;
      this.table := table;
      this.cache := new KeyCache();
    }

    ghost predicate Shows(s: System)
      reads this, cache, table
    {
      CacheOf(s, process) == cache.entries && s.table == table.rows
    }

    /** A run as dictated that has brought handler h to `pc`; the two stores are those of its last state. */
    ghost predicate Reached(r: Regime, s: System, steps: seq<Step>, h: nat, key: string, env: Outcomes, pc: Pc)
      reads this, cache, table
    {
      Valid(Protocol(r), s, steps) && Dictated(steps, h, env) &&
      var t := Final(Protocol(r), s, steps);
      Shows(t) && At(t, h) && t.handlers[h].pc == pc && t.handlers[h].key == key && t.handlers[h].process == process
    }

    /** One request, start to finish, whatever everybody else does meanwhile. */
    method SubmitOrder(h: nat, key: string, env: Outcomes, others: Others<Step>, r: Regime, s: System)
      returns (reply: Reply, steps: seq<Step>)
      requires Shows(s) && h !in s.handlers && OwnLog(s.log, h) == []
      requires env.submitted.Some? ==> env.submitted.value != ""
      modifies cache, table, others
      ensures steps != [] && steps[0] == Arrive(h, process, key)
      ensures Reached(r, s, steps, h, key, env, Replied(reply))
      ensures var t := Final(Protocol(r), s, steps);
              OwnLog(t.log, h) == if reply.Submitted? then [Submission(key, h, reply.orderId, t.handlers[h].reservedAt)] else []
    {
      Extend(Protocol(r), s, [], Arrive(h, process, key));
      steps := [Arrive(h, process, key)];
      ghost var first := steps;
      if env.wellFormed {
        reply, steps := Handle(h, key, env, others, r, s, steps);
      } else {
        reply, steps := TurnDown(h, key, env, others, r, s, steps);
      }
      assert first <= steps;
      LogAlong(r, s, steps, h);
    }

    /** Demo mode or a malformed field. */
    method TurnDown(h: nat, key: string, env: Outcomes, others: Others<Step>, r: Regime, s: System, before: seq<Step>)
      returns (reply: Reply, steps: seq<Step>)
      requires !env.wellFormed && Reached(r, s, before, h, key, env, Arrived)
      modifies cache, table, others
      ensures before <= steps && reply == Refused && Reached(r, s, steps, h, key, env, Replied(reply))
    {
      steps := Wait(h, key, env, Arrived, others, r, s, before);
      Extend(Protocol(r), s, steps, Refuse(h));
      steps := steps + [Refuse(h)];
      reply := Refused;
    }

    /** Everybody else acts. */
    method Wait(h: nat, key: string, env: Outcomes, pc: Pc, others: Others<Step>, r: Regime, s: System, before: seq<Step>)
      returns (steps: seq<Step>)
      requires Reached(r, s, before, h, key, env, pc)
      modifies cache, table, others
      ensures before <= steps && Reached(r, s, steps, h, key, env, pc)
    {
      var batch := others.Next();
      steps := before;
      for i := 0 to |batch|
        invariant before <= steps && Valid(Protocol(r), s, steps) && Dictated(steps, h, env)
        invariant var t := Final(Protocol(r), s, steps);
                  At(t, h) && t.handlers[h].pc == pc && t.handlers[h].key == key && t.handlers[h].process == process
      {
        var t := Final(Protocol(r), s, steps);
        if Allowed(r, t, batch[i]) && Foreign(batch[i], h, process) {
          ForeignKeeps(t, batch[i], h);
          Extend(Protocol(r), s, steps, batch[i]);
          steps := steps + [batch[i]];
        }
      }
      cache.entries := CacheOf(Final(Protocol(r), s, steps), process);
      table.rows := Final(Protocol(r), s, steps).table;
    }

    /** A well-formed request: deduplicate, then hand the order over. */
    method Handle(h: nat, key: string, env: Outcomes, others: Others<Step>, r: Regime, s: System, before: seq<Step>)
      returns (reply: Reply, steps: seq<Step>)
      requires env.wellFormed && (env.submitted.Some? ==> env.submitted.value != "")
      requires Reached(r, s, before, h, key, env, Arrived)
      modifies cache, table, others
      ensures before <= steps && Reached(r, s, steps, h, key, env, Replied(reply))
    {
      var goOn := true;
      if key == "" {
        steps := Wait(h, key, env, Arrived, others, r, s, before);
        Extend(Protocol(r), s, steps, CheckCache(h));
        steps := steps + [CheckCache(h)];
      } else {
        goOn, reply, steps := Deduplicate(h, key, env, others, r, s, before);
      }
      if goOn {
        reply, steps := Execute(h, key, env, others, r, s, steps);
      }
    }

    /** Both tiers: `won` when this request now owns its key, else the reply to give. */
    method Deduplicate(h: nat, key: string, env: Outcomes, others: Others<Step>, r: Regime, s: System, before: seq<Step>)
      returns (won: bool, reply: Reply, steps: seq<Step>)
      requires key != "" && env.wellFormed && Reached(r, s, before, h, key, env, Arrived)
      modifies cache, table, others
      ensures before <= steps && Reached(r, s, steps, h, key, env, if won then Executing else Replied(reply))
    {
      steps := Wait(h, key, env, Arrived, others, r, s, before);
      won, reply, steps := LookUp(h, key, env, r, s, steps);
      if won {
        won, reply, steps := ReserveKey(h, key, env, others, r, s, steps);
      }
    }

    /** The cache tier, one critical section: `absent` when the request goes on, else the reply to give. */
    method LookUp(h: nat, key: string, env: Outcomes, r: Regime, s: System, before: seq<Step>)
      returns (absent: bool, reply: Reply, steps: seq<Step>)
      requires key != "" && env.wellFormed && Reached(r, s, before, h, key, env, Arrived)
      modifies cache
      ensures steps == before + [CheckCache(h)]
      ensures Reached(r, s, steps, h, key, env, if absent then Checking else Replied(reply))
      ensures var now, found := Final(Protocol(r), s, before).now, old(cache.entries);
              && absent == !(key in found && now - found[key].recordedAt < 60.0)
              && (!absent ==> reply == if found[key].orderId != "" then FoundInMemory(found[key].orderId) else Acknowledged)
              && (forall k :: k in cache.entries <==> k == key || (k in found && now - found[k].recordedAt < 60.0))
              && (forall k | k in cache.entries :: cache.entries[k] == if k == key && absent then Entry("", now) else found[k])
    {
      Extend(Protocol(r), s, before, CheckCache(h));
      steps := before + [CheckCache(h)];
      var found := cache.CheckAndPlace(key, Final(Protocol(r), s, before).now);
      absent := found.None?;
      reply := if found.Some? && found.value != "" then FoundInMemory(found.value) else Acknowledged;
    }

    /** The table tier: `won` when this request now owns the key's row, else the reply to give. */
    method ReserveKey(h: nat, key: string, env: Outcomes, others: Others<Step>, r: Regime, s: System, before: seq<Step>)
      returns (won: bool, reply: Reply, steps: seq<Step>)
      requires Reached(r, s, before, h, key, env, Checking)
      modifies cache, table, others
      ensures before <= steps && Reached(r, s, steps, h, key, env, if won then Executing else Replied(reply))
    {
      steps := Wait(h, key, env, Checking, others, r, s, before);
      var ok, row;
      ok, row, steps := QueryTable(h, key, env, r, s, steps);
      won, reply := false, Acknowledged;
      if !ok {
        reply := Unavailable;
        steps := Abandon(h, key, reply, env, others, r, s, steps);
      } else if row.None? {
        won, reply, steps := InsertRow(h, key, env, others, r, s, steps);
      } else if row.value != "" {
        reply := FoundInTable(row.value);
        steps := UseRow(h, key, row.value, env, others, r, s, steps);
      }
    }

    /** The SELECT. */
    method QueryTable(h: nat, key: string, env: Outcomes, r: Regime, s: System, before: seq<Step>)
      returns (success: bool, row: Option<string>, steps: seq<Step>)
      requires Reached(r, s, before, h, key, env, Checking)
      ensures steps == before + [CheckTable(h, env.checkOk)]
      ensures success == env.checkOk && (success ==> row == if key in table.rows then Some(table.rows[key].orderId) else None)
      ensures Reached(r, s, steps, h, key, env,
                if !success then Abandoning(Unavailable)
                else if row.None? then Reserving
                else if row.value != "" then Recovering(row.value) else Replied(Acknowledged))
    {
      success, row := table.Check(key, env.checkOk);
      Extend(Protocol(r), s, before, CheckTable(h, env.checkOk));
      steps := before + [CheckTable(h, env.checkOk)];
    }

    /** A committed row: remember its order id in the cache too. */
    method UseRow(h: nat, key: string, id: string, env: Outcomes, others: Others<Step>, r: Regime, s: System, before: seq<Step>)
      returns (steps: seq<Step>)
      requires Reached(r, s, before, h, key, env, Recovering(id))
      modifies cache, table, others
      ensures before <= steps && Reached(r, s, steps, h, key, env, Replied(FoundInTable(id)))
    {
      steps := Wait(h, key, env, Recovering(id), others, r, s, before);
      cache.SetOrderId(key, id);
      Extend(Protocol(r), s, steps, FillCache(h));
      steps := steps + [FillCache(h)];
    }

    /** INSERT the key's row; a request that does not win drops its placeholder. */
    method InsertRow(h: nat, key: string, env: Outcomes, others: Others<Step>, r: Regime, s: System, before: seq<Step>)
      returns (won: bool, reply: Reply, steps: seq<Step>)
      requires Reached(r, s, before, h, key, env, Reserving)
      modifies cache, table, others
      ensures before <= steps && Reached(r, s, steps, h, key, env, if won then Executing else Replied(reply))
    {
      steps := Wait(h, key, env, Reserving, others, r, s, before);
      won, reply, steps := TryInsert(h, key, env, r, s, steps);
      if !won {
        steps := Abandon(h, key, reply, env, others, r, s, steps);
      }
    }

    /** The INSERT itself; `reply` is what to answer when it does not win the key. */
    method TryInsert(h: nat, key: string, env: Outcomes, r: Regime, s: System, before: seq<Step>)
      returns (won: bool, reply: Reply, steps: seq<Step>)
      requires Reached(r, s, before, h, key, env, Reserving)
      modifies table
      ensures steps == before + [ReserveRow(h, env.reserveIo)]
      ensures Reached(r, s, steps, h, key, env, if won then Executing else Abandoning(reply))
      ensures won == (env.reserveIo == Ok && key !in old(table.rows)) && reply == if env.reserveIo == Ok then Acknowledged else Unavailable
      ensures table.rows == if env.reserveIo == Error || key in old(table.rows) then old(table.rows)
                            else old(table.rows)[key := Row("", Final(Protocol(r), s, before).now, h)]
    {
      var ok;
      ok, won := table.Reserve(key, Final(Protocol(r), s, before).now, h, env.reserveIo);
      Extend(Protocol(r), s, before, ReserveRow(h, env.reserveIo));
      steps := before + [ReserveRow(h, env.reserveIo)];
      won := ok && won;
      reply := if ok then Acknowledged else Unavailable;
    }

    /** Drop the placeholder so that a retry is not held back by it. */
    method Abandon(h: nat, key: string, reply: Reply, env: Outcomes, others: Others<Step>, r: Regime, s: System, before: seq<Step>)
      returns (steps: seq<Step>)
      requires Reached(r, s, before, h, key, env, Abandoning(reply))
      modifies cache, table, others
      ensures before <= steps && Reached(r, s, steps, h, key, env, Replied(reply)) && key !in cache.entries
    {
      steps := Wait(h, key, env, Abandoning(reply), others, r, s, before);
      cache.Remove(key);
      Extend(Protocol(r), s, steps, DropPlaceholder(h));
      steps := steps + [DropPlaceholder(h)];
    }

    /** Hand the order over, then commit or release the reservation. */
    method Execute(h: nat, key: string, env: Outcomes, others: Others<Step>, r: Regime, s: System, before: seq<Step>)
      returns (reply: Reply, steps: seq<Step>)
      requires env.submitted.Some? ==> env.submitted.value != ""
      requires Reached(r, s, before, h, key, env, Executing)
      modifies cache, table, others
      ensures before <= steps && Reached(r, s, steps, h, key, env, Replied(reply))
      ensures reply == if env.submitted.Some? then Submitted(env.submitted.value) else Failed
    {
      steps := Wait(h, key, env, Executing, others, r, s, before);
      if env.submitted.Some? {
        reply := Submitted(env.submitted.value);
        Extend(Protocol(r), s, steps, SubmitOk(h, env.submitted.value));
        steps := steps + [SubmitOk(h, env.submitted.value)];
        if key != "" {
          steps := RecordOrder(h, key, env.submitted.value, env, others, r, s, steps);
        }
      } else {
        reply := Failed;
        steps := GiveUp(h, key, env, others, r, s, steps);
      }
    }

    /** The order manager refused. */
    method GiveUp(h: nat, key: string, env: Outcomes, others: Others<Step>, r: Regime, s: System, before: seq<Step>)
      returns (steps: seq<Step>)
      requires env.submitted.None? && Reached(r, s, before, h, key, env, Executing)
      modifies cache, table, others
      ensures before <= steps && Reached(r, s, steps, h, key, env, Replied(Failed))
    {
      Extend(Protocol(r), s, before, SubmitErr(h));
      steps := before + [SubmitErr(h)];
      if key != "" {
        steps := ForgetKey(h, key, env, others, r, s, steps);
      }
    }

    /** The order id goes to the cache entry, then to the row, where these still exist. */
    method RecordOrder(h: nat, key: string, id: string, env: Outcomes, others: Others<Step>, r: Regime, s: System, before: seq<Step>)
      returns (steps: seq<Step>)
      requires Reached(r, s, before, h, key, env, CachingId(id))
      modifies cache, table, others
      ensures before <= steps && Reached(r, s, steps, h, key, env, Replied(Submitted(id)))
      ensures env.commitApplied && key in table.rows ==> table.rows[key].orderId == id
    {
      steps := CacheOrder(h, key, id, env, others, r, s, before);
      steps := Wait(h, key, env, CommittingRow(id), others, r, s, steps);
      table.Commit(key, id, env.commitApplied);
      Extend(Protocol(r), s, steps, CommitRow(h, env.commitApplied));
      steps := steps + [CommitRow(h, env.commitApplied)];
    }

    method CacheOrder(h: nat, key: string, id: string, env: Outcomes, others: Others<Step>, r: Regime, s: System, before: seq<Step>)
      returns (steps: seq<Step>)
      requires Reached(r, s, before, h, key, env, CachingId(id))
      modifies cache, table, others
      ensures before <= steps && Reached(r, s, steps, h, key, env, CommittingRow(id))
    {
      steps := Wait(h, key, env, CachingId(id), others, r, s, before);
      cache.SetOrderId(key, id);
      Extend(Protocol(r), s, steps, CacheId(h));
      steps := steps + [CacheId(h)];
    }

    /** Entry and row go, so that a retry can go through. */
    method ForgetKey(h: nat, key: string, env: Outcomes, others: Others<Step>, r: Regime, s: System, before: seq<Step>)
      returns (steps: seq<Step>)
      requires Reached(r, s, before, h, key, env, DroppingEntry)
      modifies cache, table, others
      ensures before <= steps && Reached(r, s, steps, h, key, env, Replied(Failed))
      ensures env.releaseApplied ==> key !in table.rows
    {
      steps := ForgetEntry(h, key, env, others, r, s, before);
      steps := Wait(h, key, env, ReleasingRow, others, r, s, steps);
      table.Release(key, env.releaseApplied);
      Extend(Protocol(r), s, steps, ReleaseRow(h, env.releaseApplied));
      steps := steps + [ReleaseRow(h, env.releaseApplied)];
    }

    method ForgetEntry(h: nat, key: string, env: Outcomes, others: Others<Step>, r: Regime, s: System, before: seq<Step>)
      returns (steps: seq<Step>)
      requires Reached(r, s, before, h, key, env, DroppingEntry)
      modifies cache, table, others
      ensures before <= steps && Reached(r, s, steps, h, key, env, ReleasingRow)
    {
      steps := Wait(h, key, env, DroppingEntry, others, r, s, before);
      cache.Remove(key);
      Extend(Protocol(r), s, steps, DropEntry(h));
      steps := steps + [DropEntry(h)];
    }
  }

  // ---- What the request itself submitted ----

  /** The submissions of handler h. */
  function OwnLog(log: seq<Submission>, h: nat): seq<Submission>
  {
    if log == [] then []
    else OwnLog(log[..|log| - 1], h) + if log[|log| - 1].handler == h then [log[|log| - 1]] else []
  }

  /** A handler has submitted once exactly when it carries or has replied the order id. */
  ghost predicate LogMatches(s: System, h: nat)
  {
    if !At(s, h) then OwnLog(s.log, h) == []
    else
      var me := s.handlers[h];
      match me.pc
      case CachingId(id) => OwnLog(s.log, h) == [Submission(me.key, h, id, me.reservedAt)]
      case CommittingRow(id) => OwnLog(s.log, h) == [Submission(me.key, h, id, me.reservedAt)]
      case Replied(reply) => OwnLog(s.log, h) == if reply.Submitted? then [Submission(me.key, h, reply.orderId, me.reservedAt)] else []
      case Abandoning(reply) => OwnLog(s.log, h) == [] && !reply.Submitted?
      case Gone => true
      case _ => OwnLog(s.log, h) == []
  }

  lemma LogStep(s: System, step: Step, h: nat)
    requires LogMatches(s, h) && Enabled(s, step)
    ensures LogMatches(Apply(s, step), h)
  {
    if Moves(step, h) {
      if step.SubmitOk? {
        assert Apply(s, step).log[..|s.log|] == s.log;
      } else {
        SubmitSafety.OnlySubmitsLog(s, step);
      }
    } else {
      OthersLog(s, step, h);
      if At(s, h) && Foreign(step, h, s.handlers[h].process) {
        ForeignKeeps(s, step, h);
      }
    }
  }

  lemma OthersLog(s: System, step: Step, h: nat)
    requires !Moves(step, h)
    ensures OwnLog(Apply(s, step).log, h) == OwnLog(s.log, h)
    ensures h in Apply(s, step).handlers <==> h in s.handlers
  {
    OthersHandler(s, step, h);
    if step.SubmitOk? {
      assert Enabled(s, step) ==> Apply(s, step).log[..|s.log|] == s.log;
    } else {
      SubmitSafety.OnlySubmitsLog(s, step);
    }
  }

  lemma OthersHandler(s: System, step: Step, h: nat)
    requires !Moves(step, h)
    ensures h in Apply(s, step).handlers <==> h in s.handlers
  {
  }

  lemma LogAlong(r: Regime, s: System, steps: seq<Step>, h: nat)
    requires LogMatches(s, h) && Valid(Protocol(r), s, steps)
    ensures LogMatches(Final(Protocol(r), s, steps), h)
  {
    var m := Protocol(r);
    forall t, l | LogMatches(t, h) && m.enabled(t, l)
      ensures LogMatches(m.apply(t, l), h)
    {
      LogStep(t, l, h);
    }
    Preserved(m, (t: System) => LogMatches(t, h), s, steps);
  }

  lemma EndedStep(s: System, step: Step, h: nat)
    requires At(s, h) && (s.handlers[h].pc == Gone || s.handlers[h].pc.Replied?) && Enabled(s, step)
    ensures At(Apply(s, step), h) && Apply(s, step).handlers[h].pc == s.handlers[h].pc
    ensures OwnLog(Apply(s, step).log, h) == OwnLog(s.log, h)
  {
    if Moves(step, h) {
      SubmitSafety.OnlySubmitsLog(s, step);
    } else {
      OthersLog(s, step, h);
    }
  }

  /** A crash of its process, or the caller giving up, can strike a request at any point before its reply; whatever
      follows, the request never replies nor submits an order.  Replies already given stand. */
  lemma CutOff(r: Regime, s: System, cut: Step, steps: seq<Step>, h: nat)
    requires At(s, h) && (cut == Crash(s.handlers[h].process) || (cut == DropRequest(h) && !s.handlers[h].pc.Replied?))
    requires Valid(Protocol(r), Apply(s, cut), steps)
    ensures Valid(Protocol(r), s, [cut] + steps)
    ensures var t := Final(Protocol(r), s, [cut] + steps);
            && At(t, h) && OwnLog(t.log, h) == OwnLog(s.log, h)
            && t.handlers[h].pc == if s.handlers[h].pc.Replied? then s.handlers[h].pc else Gone
  {
    var m, first := Protocol(r), Apply(s, cut);
    var pc := first.handlers[h].pc;
    assert ([cut] + steps)[1..] == steps;
    forall t, l | At(t, h) && t.handlers[h].pc == pc && OwnLog(t.log, h) == OwnLog(s.log, h) && m.enabled(t, l)
      ensures var u := m.apply(t, l); At(u, h) && u.handlers[h].pc == pc && OwnLog(u.log, h) == OwnLog(s.log, h)
    {
      EndedStep(t, l, h);
    }
    Preserved(m, (t: System) => At(t, h) && t.handlers[h].pc == pc && OwnLog(t.log, h) == OwnLog(s.log, h), first, steps);
  }
}

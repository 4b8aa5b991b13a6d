/** The two-tier idempotency protocol of `submit_order`.

  Any number of engine processes, each with its own in-memory key cache, share
  one table of reserved keys.  A request handler walks through the program
  points of `submit_order`; between any two of them other handlers, crashes, the
  clock and the row cleaner may act.  Strings are the source's own: an empty
  order id marks a reservation whose order is still in flight, and an empty key
  asks for no deduplication at all.
 */
module SubmitProtocol {
  import opened Runs

  /** Seconds a cache entry or a table row is kept. */
  const TTL: real := 60.0

  datatype Entry = Entry(orderId: string, recordedAt: real)

  /** `holder` is the handler whose INSERT created the row; the table itself does not store it. */
  datatype Row = Row(orderId: string, createdAt: real, holder: nat)

  type Cache = map<string, Entry>
  type Table = map<string, Row>

  // ---- What one critical section or one SQL statement does ----

  function Retain(c: Cache, now: real): Cache
  {
    map k | k in c && now - c[k].recordedAt < TTL :: c[k]
  }

  function Place(c: Cache, key: string, now: real): Cache
  {
    var kept := Retain(c, now);
    if key in kept then kept else kept[key := Entry("", now)]
  }

  function Fill(c: Cache, key: string, id: string): Cache
  {
    if key in c then c[key := c[key].(orderId := id)] else c
  }

  function Reserve(t: Table, key: string, now: real, h: nat): Table
  {
    if key in t then t else t[key := Row("", now, h)]
  }

  function Commit(t: Table, key: string, id: string): Table
  {
    if key in t then t[key := t[key].(orderId := id)] else t
  }

  function Sweep(t: Table, now: real): Table
  {
    map k | k in t && !(t[k].createdAt < now - TTL) :: t[k]
  }

  // ---- The handlers ----

  datatype Reply =
    | Refused                    // demo mode or a malformed field
    | Submitted(orderId: string)
    | FoundInMemory(orderId: string)
    | FoundInTable(orderId: string)
    | Acknowledged               // success reported, no order id
    | Unavailable                // the table could not be reached
    | Failed                     // the order manager refused the order
  {
    function Id(): string {
      match this
      case Submitted(id) => id
      case FoundInMemory(id) => id
      case FoundInTable(id) => id
      case _ => ""
    }
  }

  datatype Pc =
    | Arrived                    // about to take the cache lock
    | Checking                   // placeholder in place, about to query the table
    | Recovering(orderId: string)
    | Reserving                  // no row seen, about to INSERT
    | Abandoning(reply: Reply)   // about to drop the placeholder and reply
    | Executing                  // about to hand the order to the order manager
    | CachingId(orderId: string)
    | CommittingRow(orderId: string)
    | DroppingEntry
    | ReleasingRow
    | Replied(reply: Reply)
    | Gone                       // process crashed or the request was dropped

  datatype Handler = Handler(process: nat, key: string, pc: Pc, reservedAt: real)

  /** One successful hand-over of an order to the order manager. */
  datatype Submission = Submission(key: string, handler: nat, orderId: string, reservedAt: real)

  datatype System = System(
    now: real,
    caches: map<nat, Cache>,
    table: Table,
    handlers: map<nat, Handler>,
    log: seq<Submission>)

  /** How a statement ended: applied, applied although an error was reported, or not applied. */
  datatype Io = Ok | AppliedButError | Error

  datatype Step =
    | Arrive(h: nat, process: nat, key: string)
    | Refuse(h: nat)
    | CheckCache(h: nat)
    | CheckTable(h: nat, ok: bool)
    | FillCache(h: nat)
    | ReserveRow(h: nat, io: Io)
    | DropPlaceholder(h: nat)
    | SubmitOk(h: nat, orderId: string)
    | SubmitErr(h: nat)
    | CacheId(h: nat)
    | CommitRow(h: nat, applied: bool)
    | DropEntry(h: nat)
    | ReleaseRow(h: nat, applied: bool)
    | DropRequest(h: nat)
    | Crash(process: nat)
    | Tick(seconds: real)
    | Cleanup

  function CacheOf(s: System, p: nat): Cache
  {
    if p in s.caches then s.caches[p] else map[]
  }

  predicate At(s: System, h: nat)
  {
    h in s.handlers
  }

  predicate Enabled(s: System, step: Step)
  {
    match step
    case Arrive(h, p, key) => h !in s.handlers
    case Refuse(h) => At(s, h) && s.handlers[h].pc == Arrived
    case CheckCache(h) => At(s, h) && s.handlers[h].pc == Arrived
    case CheckTable(h, ok) => At(s, h) && s.handlers[h].pc == Checking
    case FillCache(h) => At(s, h) && s.handlers[h].pc.Recovering?
    case ReserveRow(h, io) => At(s, h) && s.handlers[h].pc == Reserving
    case DropPlaceholder(h) => At(s, h) && s.handlers[h].pc.Abandoning?
    case SubmitOk(h, id) => At(s, h) && s.handlers[h].pc == Executing && id != ""
    case SubmitErr(h) => At(s, h) && s.handlers[h].pc == Executing
    case CacheId(h) => At(s, h) && s.handlers[h].pc.CachingId?
    case CommitRow(h, applied) => At(s, h) && s.handlers[h].pc.CommittingRow?
    case DropEntry(h) => At(s, h) && s.handlers[h].pc == DroppingEntry
    case ReleaseRow(h, applied) => At(s, h) && s.handlers[h].pc == ReleasingRow
    case DropRequest(h) => At(s, h) && !s.handlers[h].pc.Replied?
    case Crash(p) => true
    case Tick(d) => d >= 0.0
    case Cleanup => true
  }

  function Go(s: System, h: nat, pc: Pc): System
    requires At(s, h)
  {
    s.(handlers := s.handlers[h := s.handlers[h].(pc := pc)])
  }

  function SetCache(s: System, p: nat, c: Cache): System
  {
    s.(caches := s.caches[p := c])
  }

  function AfterCheckCache(s: System, h: nat): System
    requires At(s, h)
  {
    var me := s.handlers[h];
    if me.key == "" then Go(s, h, Executing)
    else
      var kept := Retain(CacheOf(s, me.process), s.now);
      var t := SetCache(s, me.process, Place(CacheOf(s, me.process), me.key, s.now));
      if me.key !in kept then Go(t, h, Checking)
      else if kept[me.key].orderId != "" then Go(t, h, Replied(FoundInMemory(kept[me.key].orderId)))
      else Go(t, h, Replied(Acknowledged))
  }

  function AfterCheckTable(s: System, h: nat, ok: bool): System
    requires At(s, h)
  {
    var me := s.handlers[h];
    if !ok then Go(s, h, Abandoning(Unavailable))
    else if me.key !in s.table then Go(s, h, Reserving)
    else if s.table[me.key].orderId != "" then Go(s, h, Recovering(s.table[me.key].orderId))
    else Go(s, h, Replied(Acknowledged))
  }

  function AfterReserve(s: System, h: nat, io: Io): System
    requires At(s, h)
  {
    var me := s.handlers[h];
    var t := if io == Error then s else s.(table := Reserve(s.table, me.key, s.now, h));
    if io != Ok then Go(t, h, Abandoning(Unavailable))
    else if me.key in s.table then Go(t, h, Abandoning(Acknowledged))
    else t.(handlers := t.handlers[h := me.(pc := Executing, reservedAt := s.now)])
  }

  function AfterSubmitOk(s: System, h: nat, id: string): System
    requires At(s, h)
  {
    var me := s.handlers[h];
    var t := s.(log := s.log + [Submission(me.key, h, id, me.reservedAt)]);
    Go(t, h, if me.key == "" then Replied(Submitted(id)) else CachingId(id))
  }

  /** A crash forgets the process's cache and all its unfinished handlers. */
  function AfterCrash(s: System, p: nat): System
  {
    s.(caches := s.caches - {p},
       handlers := map h | h in s.handlers ::
         if s.handlers[h].process == p && !s.handlers[h].pc.Replied?
         then s.handlers[h].(pc := Gone) else s.handlers[h])
  }

  function Apply(s: System, step: Step): System
  {
    if !Enabled(s, step) then s else
    match step
    case Arrive(h, p, key) => s.(handlers := s.handlers[h := Handler(p, key, Arrived, s.now)])
    case Refuse(h) => Go(s, h, Replied(Refused))
    case CheckCache(h) => AfterCheckCache(s, h)
    case CheckTable(h, ok) => AfterCheckTable(s, h, ok)
    case FillCache(h) =>
      var me := s.handlers[h];
      Go(SetCache(s, me.process, Fill(CacheOf(s, me.process), me.key, me.pc.orderId)), h,
         Replied(FoundInTable(me.pc.orderId)))
    case ReserveRow(h, io) => AfterReserve(s, h, io)
    case DropPlaceholder(h) =>
      var me := s.handlers[h];
      Go(SetCache(s, me.process, CacheOf(s, me.process) - {me.key}), h, Replied(me.pc.reply))
    case SubmitOk(h, id) => AfterSubmitOk(s, h, id)
    case SubmitErr(h) => Go(s, h, if s.handlers[h].key == "" then Replied(Failed) else DroppingEntry)
    case CacheId(h) =>
      var me := s.handlers[h];
      Go(SetCache(s, me.process, Fill(CacheOf(s, me.process), me.key, me.pc.orderId)), h,
         CommittingRow(me.pc.orderId))
    case CommitRow(h, applied) =>
      var me := s.handlers[h];
      var t := if applied then s.(table := Commit(s.table, me.key, me.pc.orderId)) else s;
      Go(t, h, Replied(Submitted(me.pc.orderId)))
    case DropEntry(h) =>
      var me := s.handlers[h];
      Go(SetCache(s, me.process, CacheOf(s, me.process) - {me.key}), h, ReleasingRow)
    case ReleaseRow(h, applied) =>
      var t := if applied then s.(table := s.table - {s.handlers[h].key}) else s;
      Go(t, h, Replied(Failed))
    case DropRequest(h) => Go(s, h, Gone)
    case Crash(p) => AfterCrash(s, p)
    case Tick(d) => s.(now := s.now + d)
    case Cleanup => s.(table := Sweep(s.table, s.now))
  }

  /** The cleaner deletes exactly the rows older than 60 seconds. */
  lemma CleanerExact(s: System, key: string)
    ensures var t := Apply(s, Cleanup);
            && (key in t.table <==> key in s.table && s.now - s.table[key].createdAt <= 60.0)
            && (key in t.table ==> t.table[key] == s.table[key])
            && t.caches == s.caches && t.handlers == s.handlers && t.log == s.log && t.now == s.now
  {
  }

  // ---- The two regimes the guarantees are about ----

  /** The handler owns a reservation it has not yet committed, released or abandoned. */
  predicate Owns(me: Handler)
  {
    me.key != "" &&
    (me.pc == Executing || me.pc.CachingId? || me.pc.CommittingRow? || me.pc == DroppingEntry || me.pc == ReleasingRow)
  }

  /** Time may pass only while every reservation still owned stays within the retention period. */
  predicate Prompt(s: System, step: Step)
  {
    step.Tick? ==> forall h | h in s.handlers && Owns(s.handlers[h]) ::
                     s.now + step.seconds - s.handlers[h].reservedAt <= TTL
  }

  /** `KeepRows`: the cleaner never runs; handlers may take arbitrarily long.
      `InTime`: the cleaner runs at will; handlers finish within the retention period.
      `Anything`: neither restriction. */
  datatype Regime = KeepRows | InTime | Anything

  predicate Allowed(r: Regime, s: System, step: Step)
  {
    Enabled(s, step) &&
    match r
    case KeepRows => step != Cleanup
    case InTime => Prompt(s, step)
    case Anything => true
  }

  function Protocol(r: Regime): Machine<System, Step>
  {
    Machine((s: System, step: Step) => Allowed(r, s, step), (s: System, step: Step) => Apply(s, step))
  }

  const BOOT: System := System(0.0, map[], map[], map[], [])
}

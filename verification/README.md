# Trading engine: a verified model

A Dafny model of the parts of the trading bot whose correctness depends on many steps together: the
idempotent order submission, the bonding-curve quotes, the Base58 codec, the order pipeline with its exposure
limit, the decision engine, the wallet supervisor and the mockup preview plugin.  `dafny verify dfyconfig.toml`
checks everything.

## How it is modelled

Concurrent components are labelled transition systems (`Runs`).  Whatever the code does not control is part of
a step's label: which handler or task moves next, what the database or the chain answers, when a process
crashes, how much time passes.  A statement about all runs is therefore one about every schedule and every
outcome.  Where the code updates an object in place there is a class with the same fields whose contracts are
about these systems.  `SubmitHandler.BotService`, `OrderProcessing.OrderManager` and `PreviewRefresh.PreviewPlugin`
perform runs in which everybody else acts wherever the code awaits, `Supervisor.Loop` performs one step per event; so
the guarantees about runs are guarantees about those methods.  `EngineCalls.DecisionEngine` performs the runs of calls
nobody interrupts; interrupted ones are in `DecisionLatch` alone.

**Idempotent submission** (`SubmitProtocol`, `SubmitSafety`, `Retention`, `CommittedRows`, `SubmitHandler`,
`SubmitAnswers`).  Any number of processes, each with its own key cache, share one table.  Handlers walk through the
program points of `submit_order`; crashes, dropped requests, statements that fail or that apply although an error is reported, the
clock and the row cleaner act in between.  While rows are kept, a key reaches the order manager at most once and
all processes agree on its order id.  With the cleaner running a key can be taken again once its 60 second
retention period is over; the guarantee is then that two submissions of a key were reserved more than that period
apart.  Handlers may be arbitrarily slow for it: it holds as long as every applied release finds no claim of its
key within the retention period, for which it suffices that each release comes within the retention period of its
own reservation.  This is exact: any release that does find one can be continued to two submissions within the
period.  The order ids in the table are likewise exact: each belongs to its row's own reservation as long as applied
commits are prompt too.  The method for one request allows everybody else to act at each of its awaits.

**Bonding curve** (`Widths`, `BondingCurve`, `CurveTheorems`).  The quotes with their 64- and 128-bit widths,
saturation, clamps and rounding.  The repository only quotes; `AfterBuy` and `AfterSell` add the reserves after
a trade, so that inverse, split and round-trip theorems can be stated.

**Base58** (`Positional`, `Radix`, `Base58`).  The in-place carry loops are proved to compute the one canonical
notation of a number (draft-msporny-base58, sections 3 and 4); both round trips follow from uniqueness of
positional notation.

**Order pipeline** (`Totals`, `OrderPipeline`, `Custody`, `OrderlyCustody`, `Exposure`, `LimitBreaks`, `Retries`,
`Drain`, `QueueOrder`, `OrderProcessing`, `OrderAnswers`).  The live path, `OrderManagerMinimal::process_order`: any number of tasks
insert into the active map, read the exposure, decide, execute, retry or close.  Conservation, the retry bounds and
draining hold in every schedule.  The exposure limit holds in *orderly* runs: no order that is past the gate, or can
still pass it, is cancelled while active, and a retried order re-enters the active map only after its previous task
left it (requeueing and removing in one step guarantees that).  This is exact: where there is room for one more order
and nothing is stuck before the gate, any other cancellation or entry has a continuation beyond the limit.  The
method for one task allows everybody else to act between its steps.

**Decision engine** (`Decision`, `DecisionLatch`, `EngineCalls`, `ExecutionGate`).  The rules in priority order;
the counter, latch and flag one call at a time and one atomic operation at a time; and the agreement between the
execution gate and the bounds an order is sent with.

**Supervisor** (`Supervisor`).  The event loop, its workers, timers and restart messages.

**Preview plugin** (`PreviewSource`, `PreviewRefresh`).  The generated module, read line by line and key by key, and the
coalescing `refresh`, one event-loop turn at a time, with discoveries and writes that may fail.

## What the proofs brought to light

- A handler that fails after its row was cleaned up deletes the row of the next reservation of its key, and the key
  is then taken twice within one retention period (`Retention.StaleReleaseBreaks`); the release statement names the
  key only.  Slow handlers that succeed keep submissions apart, but submit out of order
  (`SubmitSafety.OverstayReorders`) and can commit their order id into the row of a newer reservation
  (`CommittedRows.SlowCommit`).
- The pending list is never drained by processing, so an engine accepts at most `max_pending_orders` orders and one
  more for each cancellation (`Drain.AcceptedBounded`).
- A cancelled order keeps executing while its share of the limit is free again (`LimitBreaks.CancelExact`),
  and a fast retry has the same effect (`LimitBreaks.InsertExact`).
- From the 33rd retry on, the backoff is zero in a release build (`Retries.PowerWraps`).
- The comments call the pause report single-fire and say a reset lets the next order be evaluated cleanly; a
  reset that overlaps a crossing can leave the wallet paused with nobody told, and nothing else can
  (`DecisionLatch.ReportedUnlessSwallowed`).
- The comment on the restart channel says its messages are always processed; the guard after it can drop them,
  but never does (`Supervisor.RestartNeverIgnored`).  A wallet found disabled when its timer fires stays in
  backoff for good, even when enabled again, and no other wallet does (`Supervisor.StrandedExactly`,
  `Supervisor.StrandedForGood`).  A wallet whose worker panics counts as active for good and is never restarted
  (`Supervisor.OrphanedForGood`).
- A failing discovery loses the refreshes asked for meanwhile until the next call, and a failing write is not
  repeated until the source changes (`PreviewRefresh.NothingLost`, `PreviewRefresh.FailedWriteSticks`).
- Sell quotes and quotes for a fixed amount of SOL round in the trader's favour (`CurveTheorems.SellExact`,
  `CurveTheorems.BuyExact`), so cutting a sell into parts, or buying and selling back, can quote a few lamports more
  than the reserves' product justifies; costs of exact-token buys round the other way.
- Among byte arrays and strings over the Base58 alphabet, only the empty ones do not round-trip.

## Model

| member | source | states |
|---|---|---|
| `SubmitSafety.AtMostOnce` | rust-engine/src/grpc_server.rs:133-339 | Rows never expiring: over every interleaving of any number of processes, handlers, crashes, dropped requests and table errors, two submissions logged for one non-empty key are the same submission. |
| `SubmitSafety.Agreement` | rust-engine/src/grpc_server.rs:139-321 | Rows never expiring: any two non-empty order ids replied for a key, by any process, from memory, from the table or from execution, are equal and are the id logged for the key. |
| `Retention.RetentionApart` | rust-engine/src/database.rs:652-661 | Cleaner running, handlers arbitrarily slow: if every applied release comes within 60 s of its reservation, or finds no live claim of its key, any two submissions of one key were reserved more than 60 s apart. |
| `Retention.ReleaseExact` | rust-engine/src/database.rs:640-648 | In every state such runs reach: an applied release keeps all submissions apart in every continuation whose own releases are harmless, if and only if it finds no claim of its key within the retention period. |
| `Retention.StaleReleaseBreaks` | rust-engine/src/grpc_server.rs:324-331 | Such a bad release is reached for every key: a handler that fails, overstays and is cleaned up deletes the row of the next reservation, and some continuation then submits two orders of the key reserved within 60 s of each other. |
| `Retention.PromptReleaseIsOwn` | rust-engine/src/database.rs:640-648 | Where releases are prompt, each finds its own row, however slow everybody else is. |
| `Retention.StepKept` | rust-engine/src/grpc_server.rs:133-339 | Every step of either regime keeps fresh claims protected by their own rows and all claims of a key apart. |
| `Retention.SubmittedAgain` | rust-engine/src/database.rs:652-661 | The window ends: from any state in which a key has no row within the retention period, prompt handlers and the cleaner suffice for another submission of it. |
| `SubmitSafety.ReleaseIsOwn` | rust-engine/src/database.rs:640-648 | In both regimes a handler about to release still owns the row it would delete, uncommitted, and every submission of that key has expired before this reservation. |
| `SubmitSafety.StepKeeps` | rust-engine/src/grpc_server.rs:133-339 | Every step a regime allows keeps the invariant tying row, reservation owner, submission log and every stored or replied order id together. |
| `SubmitSafety.Reachable` | rust-engine/src/grpc_server.rs:133-339 | The invariant holds after every run from the empty system. |
| `SubmitSafety.InReservationOrder` | rust-engine/src/grpc_server.rs:300-311 | Cleaner running, handlers within 60 s of their reservations: submissions of a key are logged in the order of their reservations, more than 60 s apart. |
| `SubmitSafety.OverstayReorders` | rust-engine/src/database.rs:652-661 | From any state where a handler is about to execute a key whose row, if any, is not from the future: it can wait so long that its submission is logged after that of a later reservation. |
| `CommittedRows.RowsHoldOwnOrders` | rust-engine/src/database.rs:626-637 | Cleaner running, handlers arbitrarily slow otherwise: while applied commits and releases come within the retention period of their reservations, every committed row holds the order its own holder submitted under that reservation. |
| `CommittedRows.InTimeOwnOrders` | rust-engine/src/database.rs:626-637 | The same for handlers that finish within 60 s of their reservations. |
| `CommittedRows.CommitExact` | rust-engine/src/database.rs:626-637 | Order ids being distinct: an applied commit keeps all rows with their own holders' orders if and only if the row is the committing handler's own, or gone. |
| `CommittedRows.SlowCommit` | rust-engine/src/database.rs:626-637 | From any state where a handler is about to commit and its key has no row within the retention period, the commit can put its order id into the row of a newer reservation still executing. |
| `SubmitHandler.BotService.SubmitOrder` | rust-engine/src/grpc_server.rs:75-339 | One request, whatever everybody else does at each of its awaits: a run of the protocol whose own steps have exactly the outcomes the environment answered, ending in the reply given, with the two stores in the state of that run and the request submitted once or never, as the reply says. |
| `SubmitAnswers.Undisturbed` | rust-engine/src/grpc_server.rs:133-339 | If nobody else acts, the exact reply, cache and table as functions of the two stores the request met. |
| `SubmitAnswers.DuplicateAnswered` | rust-engine/src/grpc_server.rs:139-163 | A duplicate less than 60 s after its key was entered is answered from memory, with the order id or an acknowledgement, even when the table is unreachable; the table is not touched. |
| `SubmitAnswers.ExpiredGoesOn` | rust-engine/src/grpc_server.rs:134-138 | A key entered 60 s ago or more is never answered from memory: without a row, and with the INSERT applied, the order is handed over. |
| `SubmitAnswers.CrashRecovered` | rust-engine/src/grpc_server.rs:198-229 | After a crash of the process, the next request for a committed key is answered with its order id from the table. |
| `SubmitHandler.CutOff` | rust-engine/src/grpc_server.rs:75-339 | A crash of its process, or the caller giving up, can strike a request at any point before its reply; whatever follows, it never replies nor submits an order, and replies given stand. |
| `SubmitAnswers.FromChecking` | rust-engine/src/grpc_server.rs:185-238 | From the query on, the exact reply, cache and table, whatever the others did before it. |
| `SubmitAnswers.FromReserving` | rust-engine/src/grpc_server.rs:239-270 | From the INSERT on likewise, a row that came in between included. |
| `SubmitAnswers.FromExecuting` | rust-engine/src/grpc_server.rs:300-338 | From handing the order over on likewise: a success leaves its id in entry and row, a failure leaves neither. |
| `SubmitHandler.BotService.Wait` | rust-engine/src/grpc_server.rs:185-190 | While a request waits, any steps of others may change both stores; its own program point stays. |
| `SubmitHandler.BotService.LookUp` | rust-engine/src/grpc_server.rs:134-175 | One critical section, one step of the protocol: exactly the entries less than 60 s old survive, such an entry of the key is answered with its order id or an acknowledgement, and otherwise the key is reserved and the request goes on. |
| `SubmitHandler.BotService.QueryTable` | rust-engine/src/database.rs:593-602 | The lookup is the protocol step that decides between unavailable, absent, committed and in flight. |
| `SubmitHandler.BotService.TryInsert` | rust-engine/src/database.rs:610-623 | An existing row is never overwritten; winning is success together with absence, one step of the protocol. |
| `SubmitHandler.BotService.Execute` | rust-engine/src/grpc_server.rs:300-338 | The order manager's answer decides the reply; commit or release follow it, others acting in between. |
| `SubmitHandler.BotService.RecordOrder` | rust-engine/src/grpc_server.rs:301-311 | Ends with the id in the row wherever there is one and the statement applied, as a run of the protocol. |
| `SubmitHandler.BotService.ForgetKey` | rust-engine/src/grpc_server.rs:324-331 | Ends without a row of the key if the statement applied, as a run of the protocol. |
| `SubmitHandler.KeyCache.CheckAndPlace` | rust-engine/src/grpc_server.rs:134-175 | The key is found if and only if its entry is less than 60 s old; exactly such entries survive, unchanged, and a placeholder is added when the key is not found. |
| `SubmitHandler.KeyTable.Reserve` | rust-engine/src/database.rs:610-623 | INSERT unless the key is taken; won tells whether this call created the row. |
| `CurveTheorems.LeastPayment` | rust-engine/src/pumpfun/bonding_curve.rs:133-148 | The quoted cost is the least payment that does not decrease the reserve product: a payment keeps the product if and only if it is at least the quote. |
| `CurveTheorems.CostExact` | rust-engine/src/pumpfun/bonding_curve.rs:133-148 | On every pool and for every amount: x lamports cover the quote exactly when the pool has more tokens and the payment keeps the product; the largest 64-bit value is quoted exactly when no smaller payment does. |
| `CurveTheorems.SellExact` | rust-engine/src/pumpfun/bonding_curve.rs:41-52 | On every pool: the sell quote is the least payout that brings the product down to where it was, or the real reserve. |
| `CurveTheorems.BuyExact` | rust-engine/src/pumpfun/bonding_curve.rs:28-38 | On every pool: the token quote is the least withdrawal that brings the product down to where it was, or the real reserve. |
| `CurveTheorems.ExactInverse` | rust-engine/src/pumpfun/bonding_curve.rs:41-52 | Buying tokens at the quoted cost and selling them on the resulting reserves returns exactly that cost. |
| `CurveTheorems.SplitBuyNotCheaper` | rust-engine/src/pumpfun/bonding_curve.rs:133-148 | Cutting an exact-token buy into any list of parts never costs less than buying at once. |
| `CurveTheorems.SplitSell` | rust-engine/src/pumpfun/bonding_curve.rs:41-52 | Cutting a sell into any n parts yields at least the single quote and at most n - 1 lamports more, whether or not the real reserve clamps. |
| `CurveTheorems.RoundTripBound` | rust-engine/src/pumpfun/bonding_curve.rs:28-52 | Spending s lamports and selling all tokens received returns between s and s + ceil((Vsol + s - 1) / Vtok). |
| `CurveTheorems.CostBuysTokens` | rust-engine/src/pumpfun/bonding_curve.rs:28-38 | Paying the quoted cost of t tokens buys at least t if and only if the pool holds virtual SOL. |
| `CurveTheorems.SellBelowCost` | rust-engine/src/pumpfun/bonding_curve.rs:41-52 | On any pool and for any amount the sell quote never exceeds the cost of the same tokens. |
| `CurveTheorems.BoundsBracket` | rust-engine/src/pumpfun/bonding_curve.rs:160-174 | The slippage bounds bracket both quotes on any pool, even where the 64-bit slippage product wraps. |
| `CurveTheorems.HalfPoolCost` | rust-engine/src/pumpfun/bonding_curve.rs:133-148 | Up to half of the virtual tokens cost at most the virtual SOL. |
| `CurveTheorems.ImpactExact` | rust-engine/src/pumpfun/bonding_curve.rs:160-174 | In that range, if Vsol * bps fits 64 bits, nothing wraps and the bounds are the exact percentages. |
| `Widths.ProductFits` | rust-engine/src/pumpfun/bonding_curve.rs:32-37 | No product of two 64-bit reserves saturates or overflows 128 bits, even with a 64-bit addend. |
| `CurveTheorems.TokenQuote` | rust-engine/src/pumpfun/bonding_curve.rs:28-38 | The buy quote in unbounded arithmetic: no saturation is ever reached. |
| `CurveTheorems.SellQuote` | rust-engine/src/pumpfun/bonding_curve.rs:41-52 | The sell quote in unbounded arithmetic, with the new reserve never above the old. |
| `CurveTheorems.CostQuote` | rust-engine/src/pumpfun/bonding_curve.rs:133-148 | The cost quote is the ceiling of the exact quotient, clamped to 64 bits. |
| `Base58.RoundTrip` | artifacts/api-server/src/routes/settings.ts:29-73 | Decoding an encoding returns the bytes, if and only if there are any (the empty array comes back as one zero byte). |
| `Base58.Canonicity` | artifacts/api-server/src/routes/settings.ts:29-73 | Every string over the alphabet is the encoding of what it decodes to, if and only if it is not empty. |
| `Base58.Injective` | artifacts/api-server/src/routes/settings.ts:29-51 | No two non-empty byte strings share an encoding. |
| `Base58.Encode` | artifacts/api-server/src/routes/settings.ts:29-51 | The in-place encoder returns the base-58 notation of the number the bytes denote, led by one 1 for each leading zero byte but the last. |
| `Base58.Decode` | artifacts/api-server/src/routes/settings.ts:53-73 | The in-place decoder returns the base-256 notation of the number the letters denote with the leading zeros, or the first character outside the alphabet. |
| `Base58.TakeByte` | artifacts/api-server/src/routes/settings.ts:31-42 | One turn of the carry loop multiplies the digits' value by 256 and adds the byte, and keeps the notation canonical. |
| `Base58.TakeDigit` | artifacts/api-server/src/routes/settings.ts:55-68 | One turn of the carry loop multiplies the bytes' value by 58 and adds the digit, and keeps the notation canonical. |
| `Base58.ToDigits` | artifacts/api-server/src/routes/settings.ts:30-42 | The digits are the unique canonical ones of the big-endian number. |
| `Base58.ToBytes` | artifacts/api-server/src/routes/settings.ts:54-68 | The bytes are the unique canonical ones of the letters' number, or the first invalid character decides. |
| `Base58.LeadingOnes` | artifacts/api-server/src/routes/settings.ts:43-46 | One letter per leading zero byte, the last byte aside. |
| `Base58.PadZeros` | artifacts/api-server/src/routes/settings.ts:69-71 | One zero byte per leading 1, the last character aside. |
| `Base58.IndexOfLetter` | artifacts/api-server/src/routes/settings.ts:27-27 | The alphabet has no repeated letter: looking a digit's letter up gives the digit back. |
| `Base58.LettersExact` | artifacts/api-server/src/routes/settings.ts:27-27 | The letters are exactly the digits and ASCII letters without 0, I, O and l. |
| `Base58.AlphabetAscends` | artifacts/api-server/src/routes/settings.ts:27-27 | Their values ascend with their code points, so that each letter's value is fixed. |
| `Radix.ConvertBack` | artifacts/api-server/src/routes/settings.ts:29-73 | Changing the radix there and back, leading zeros kept, is the identity if and only if the notation is not empty. |
| `Radix.ConvertShape` | artifacts/api-server/src/routes/settings.ts:43-50 | A conversion keeps the number and the count of leading zeros, and its digits are below the new base. |
| `Positional.Unique` | artifacts/api-server/src/routes/settings.ts:29-73 | Canonical positional notation of a number is unique, in any base from 2. |
| `Positional.CarryTurn` | artifacts/api-server/src/routes/settings.ts:33-37 | The carry stays below the factor and the partial value is preserved by one digit step. |
| `Custody.Conservation` | rust-engine/src/order/manager.rs:1073-1258 | In every schedule, whatever is cancelled and however early retries re-enter: each submitted order is in exactly one of queue, a task's custody and history, once, under its submitted amount, and is active only while a task that entered holds it. |
| `Custody.StepKeeps` | rust-engine/src/order/manager.rs:1073-1258 | Every step keeps custody, history, the submitted amounts and that active orders were entered. |
| `OrderlyCustody.LiveOrdersActive` | rust-engine/src/order/manager.rs:1076-1081 | In every orderly run the order of a task past the gate, or able to pass it, is in the active map as the task holds it, and no other task has entered with it. |
| `Exposure.ExposureSafe` | rust-engine/src/order/manager.rs:1076-1128 | In every orderly run (no live order cancelled while active, no retry entering before its previous task left), for any interleaving of any number of tasks, the summed amounts of orders past the gate and not yet removed never exceed the portfolio limit. |
| `Exposure.SnapshotCovers` | rust-engine/src/order/manager.rs:1108-1113 | A new reading of the exposure covers every order counted before it, the step on which safety rests. |
| `LimitBreaks.CancelExact` | rust-engine/src/order/manager.rs:286-310 | From every state orderly runs reach with room for one more order and nothing stuck before the gate: a cancellation keeps every orderly continuation within the limit if and only if it strikes no live order's active entry. |
| `LimitBreaks.InsertExact` | rust-engine/src/order/manager.rs:1236-1239 | From such a state: a task entering the active map keeps every orderly continuation within the limit if and only if its order's previous entry is gone. |
| `LimitBreaks.CancelBreaksLimit` | rust-engine/src/order/manager.rs:286-310 | Such a state with a live order is reached from the start, for every positive limit: one cancellation then has a continuation beyond it. |
| `LimitBreaks.EarlyRetryBreaksLimit` | rust-engine/src/order/manager.rs:1236-1239 | One failed execution reaches a state in which the retry can enter early, and a continuation beyond the limit. |
| `Retries.AttemptsBounded` | rust-engine/src/order/manager.rs:1222-1241 | In every schedule an order starts executing at most max_retries + 1 times. |
| `Retries.ClosedAccount` | rust-engine/src/order/manager.rs:1222-1241 | In every schedule a closed order with r retries executed r or r + 1 times and waited retry_delay * (2^min(r, 32) - 1). |
| `Retries.SleepClosedForm` | rust-engine/src/order/manager.rs:1224-1224 | The delays add up to the closed form, with the 32-bit power exact below exponent 32 and zero beyond. |
| `Retries.PowerWraps` | rust-engine/src/order/manager.rs:1224-1224 | The 32-bit power of two is exact below exponent 32 and zero from there on. |
| `Drain.SchedulesEnd` | rust-engine/src/order/manager.rs:333-349 | Without submissions any schedule has no more working steps than the decreasing measure of its first state. |
| `Drain.EveryRunDrains` | rust-engine/src/order/manager.rs:333-349 | After any run, whatever was submitted and cancelled, the rest of the work is bounded. |
| `Drain.StepLighter` | rust-engine/src/order/manager.rs:1222-1258 | Every step but a submission or a cancellation makes the remaining work strictly smaller, retries included. |
| `Drain.StopsOnlyEmpty` | rust-engine/src/order/manager.rs:1073-1258 | The pipeline can stop only with an empty queue and every order in history or with a task whose closing write failed. |
| `Drain.DrainsToHistory` | rust-engine/src/order/manager.rs:1411-1441 | With successful closing writes, any schedule that stops has every submitted order in history and nothing queued, running or active. |
| `Drain.AcceptedBounded` | rust-engine/src/order/manager.rs:260-266 | Processing never shortens the pending list: in any schedule at most max_pending_orders orders plus one per cancellation are ever accepted. |
| `QueueOrder.FirstInFirstOut` | rust-engine/src/order/manager.rs:333-349 | In every schedule the orders waiting at first, followed by those sent since, retries in the place they came back to, are those started, in the same sequence, followed by those still waiting. |
| `Custody.PermitsRespected` | rust-engine/src/order/manager.rs:333-349 | In every schedule no more tasks run at once than the semaphore has permits. |
| `OrderProcessing.OrderManager.ProcessOrder` | rust-engine/src/order/manager.rs:1073-1258 | One task, whatever everybody else does between its steps: a run of the pipeline whose own steps have exactly the outcomes the environment answered, ending in the step the result tells, with the stores in the state of that run. It closes as executed only if the order landed, and retries only with retries left and after an error that contains none of the four hopeless messages. |
| `OrderAnswers.Undisturbed` | rust-engine/src/order/manager.rs:1073-1258 | If nobody else acts: the exact result, queue, active map and history as functions of the stores met. |
| `OrderAnswers.FromInserted` | rust-engine/src/order/manager.rs:1086-1153 | From the reading on likewise, whatever the others did before it. |
| `OrderAnswers.FromSnapped` | rust-engine/src/order/manager.rs:1114-1153 | From the decision on likewise, whatever became of the active map since the reading. |
| `OrderAnswers.FromExecuting` | rust-engine/src/order/manager.rs:1173-1258 | From the execution on likewise: closing, or a retry while retries are left and the error is transient. |
| `OrderProcessing.OrderManager.Wait` | rust-engine/src/order/manager.rs:1095-1104 | While a task waits, any steps of others may change all stores; the task itself stays. |
| `OrderProcessing.OrderManager.Gate` | rust-engine/src/order/manager.rs:1086-1153 | Passes exactly when the mint parses, the other rules pass and the order fits beside the exposure it read. |
| `OrderProcessing.OrderManager.Judge` | rust-engine/src/order/manager.rs:1108-1128 | Reads the total of the active map without its own amount and decides on that reading, others acting in between. |
| `OrderProcessing.OrderManager.TotalActive` | rust-engine/src/order/manager.rs:1108-1111 | The loop computes the sum over the active map, in whatever order it visits it. |
| `OrderProcessing.OrderManager.ExposureOfOthers` | rust-engine/src/order/manager.rs:1106-1113 | The order's own amount is taken out again, never below zero. |
| `OrderProcessing.OrderManager.Execute` | rust-engine/src/order/manager.rs:1173-1258 | A landed order closes as executed; an error that contains "invalid mint", "insufficient funds", "insufficient lamports" or "already processed" in any case closes as failed, any other is retried while retries are left; a run of the pipeline whatever the others do. |
| `OrderPipeline.RetriableExact` | rust-engine/src/order/manager.rs:29-35 | Lowering the error and searching it decides exactly whether it contains one of the four messages in any case of ASCII letters. |
| `OrderPipeline.NeverRetried` | rust-engine/src/order/manager.rs:29-35 | Whatever stands before and after one of the four messages, in whatever case it is written, the error is not retried. |
| `OrderProcessing.OrderManager.Retry` | rust-engine/src/order/manager.rs:1236-1240 | Enqueued with one more retry, then the active entry removed, others acting in between. |
| `OrderProcessing.OrderManager.Close` | rust-engine/src/order/manager.rs:1411-1441 | Active entry and history change only if the closing write succeeded. |
| `OrderProcessing.OrderManager.SubmitOrder` | rust-engine/src/order/manager.rs:193-283 | Accepted exactly when the amount is positive, the other rules allow it, the row is stored and the pending list has room; a refusal changes neither list. |
| `OrderProcessing.OrderManager.CancelOrder` | rust-engine/src/order/manager.rs:286-310 | The order is struck from pending list and active map; every other pending order stays as often as before. |
| `Decision.HistoryRefinement` | rust-engine/src/decision/mod.rs:134-291 | The engine's fields are what the reported verdicts imply: the counter is the run of rejections plus the crossing halt, the latch is set exactly when that halt was reported, exactly when the run reached the threshold, and the flag exactly while that halt has not been taken. |
| `Decision.FirstInOrder` | rust-engine/src/decision/mod.rs:123-249 | The rule a rejection names is the first in the documented order that the order violates, position and exposure compared in lamports; it passes exactly when it violates none. |
| `EngineCalls.DecisionEngine.Evaluate` | rust-engine/src/decision/mod.rs:134-253 | The verdict by the rules and the history of verdicts alone: halt after a reported pause or in demo mode, halt on the violation that completes the run, reject on others, naming the first rule violated, allow if and only if none is; and a run of the atomic operations. |
| `EngineCalls.DecisionEngine.OnReject` | rust-engine/src/decision/mod.rs:257-291 | Halts exactly when this rejection brings the run since the last Allow or reset to the threshold; a run of the atomic operations. |
| `EngineCalls.DecisionEngine.TakeNeedsDbPause` | rust-engine/src/decision/mod.rs:98-100 | True exactly for the first take after a reported pause, unless a reset came between. |
| `EngineCalls.DecisionEngine.ResetPause` | rust-engine/src/decision/mod.rs:117-121 | Afterwards the history implies no pause, no report due and no rejections; a run of three stores. |
| `DecisionLatch.TakesBounded` | rust-engine/src/decision/mod.rs:98-121 | At atomic-operation granularity, any number of threads: with r resets begun the flag is taken at most r + 1 times. |
| `DecisionLatch.ReportedOnce` | rust-engine/src/decision/mod.rs:257-291 | Without resets a pause is reported exactly once: taken, waiting to be taken, or about to be flagged. |
| `DecisionLatch.PausedForGood` | rust-engine/src/decision/mod.rs:134-145 | Without resets a set latch stays set and every later evaluation halts. |
| `DecisionLatch.ReportedUnlessSwallowed` | rust-engine/src/decision/mod.rs:98-121 | For every threshold and every run, resets included: a pause is unreported (no flag, not taken, nobody about to flag) if and only if some reset cleared the flag of a pause nobody was told of and no later reset lifted that pause. |
| `DecisionLatch.ReportStep` | rust-engine/src/decision/mod.rs:257-291 | Step by step: exactly such a clearing store loses a report, exactly lifting the latch ends the loss. |
| `DecisionLatch.ResetSwallowsReport` | rust-engine/src/decision/mod.rs:117-121 | From any state whatsoever and for any threshold, one reset with enough rejections between its last two stores leaves a pause nobody was told of. |
| `DecisionLatch.AloneIsSequential` | rust-engine/src/decision/mod.rs:134-291 | An evaluation nobody interrupts has exactly the sequential effect and verdict. |
| `ExecutionGate.SentBoundsHold` | rust-engine/src/order/manager.rs:1161-1169 | With a pool snapshot, every order past the gate is sent with its explicit bounds unchanged, which are then no tighter than the pool's, and the pool's where it has none; min output <= sell quote <= cost quote <= max cost either way. |
| `ExecutionGate.WithoutPoolExact` | rust-engine/src/order/manager.rs:1163-1169 | Without a pool: explicit bounds unchanged; else amount minus its share, floored at zero, whenever amount * bps fits 64 bits, and amount plus its share if and only if that product and the sum both fit. |
| `ExecutionGate.GateIsExact` | rust-engine/src/decision/mod.rs:208-249 | On top of the other rules the gate asks exactly that the bounds sent are no tighter than the computed ones. |
| `ExecutionGate.ExposureInLamports` | rust-engine/src/decision/mod.rs:178-188 | With exposure and limit given in lamports, an order passes exactly when others + amount <= limit and it violates no other rule. |
| `Supervisor.Safety` | rust-engine/src/main.rs:434-538 | For any order of events the three sets stay disjoint, each wallet has at most one live worker, and at most one timer or restart message, only while in backoff. |
| `Supervisor.BoundedWork` | rust-engine/src/main.rs:602-643 | Each wallet is started at most 3 times with at most 9 attempts. |
| `Supervisor.BoundsReached` | rust-engine/src/main.rs:602-643 | Both bounds are reached by a run. |
| `Supervisor.RestartNeverIgnored` | rust-engine/src/main.rs:447-457 | A restart message always finds its wallet neither active nor skipped: the guard that would drop it never fires. |
| `Supervisor.StrandedExactly` | rust-engine/src/main.rs:525-533 | In every run a wallet is in backoff with neither timer nor message if and only if some timer of it found it disabled. |
| `Supervisor.BackoffPending` | rust-engine/src/main.rs:525-533 | While no timer found it disabled, a wallet in backoff has exactly one timer or restart message. |
| `Supervisor.StrandedForGood` | rust-engine/src/main.rs:471-483 | Such a wallet is never started again, whatever happens. |
| `Supervisor.OrphanedForGood` | rust-engine/src/main.rs:496-500 | In every run a wallet counts as active without a worker if and only if a worker task of it ended without returning the wallet; it then stays so and is never started again, whatever happens. |
| `Supervisor.BothReached` | rust-engine/src/main.rs:496-533 | Both misfortunes, the lost worker and the timer that finds its wallet disabled, can strike any wallet with its first worker. |
| `Supervisor.StepKeepsWallet` | rust-engine/src/main.rs:434-538 | Every event keeps every wallet's standing sound. |
| `Supervisor.Loop.HandleRestart` | rust-engine/src/main.rs:447-468 | In any state the loop can be in, one step of it: a restart message is never dropped, so a worker starts exactly when one is built. |
| `Supervisor.Loop.HandleSpawn` | rust-engine/src/main.rs:471-494 | One step of the loop: a worker starts only for a wallet with neither worker nor timer nor restart message. |
| `Supervisor.Loop.HandleExit` | rust-engine/src/main.rs:496-535 | One step of the loop: the exit of a wallet's n-th worker starts a timer of 2^n seconds, that of the third halts it. |
| `PreviewSource.SourceLines` | artifacts/mockup-sandbox/mockupPreviewPlugin.ts:54-71 | For every list of components the generated file is three fixed lines, one line per component in order, all but the last with a comma, and the end. |
| `PreviewSource.SourcesDiffer` | artifacts/mockup-sandbox/mockupPreviewPlugin.ts:54-71 | Two lists of components give the same source if and only if they are equal, for any one-line, non-empty, injective rendering. |
| `PreviewSource.RenderFaithful` | artifacts/mockup-sandbox/mockupPreviewPlugin.ts:57-58 | The plugin's own rendering, both keys quoted as JSON, is such a rendering. |
| `PreviewSource.OwnEntries` | artifacts/mockup-sandbox/mockupPreviewPlugin.ts:54-71 | With it, the line of the i-th component is its quoted key and an import of its quoted path. |
| `PreviewSource.QuoteReadsBack` | artifacts/mockup-sandbox/mockupPreviewPlugin.ts:57-58 | Reading a quoted key back, as RFC 8259 reads strings, gives the key, whatever follows its closing quote. |
| `PreviewRefresh.OneAtATime` | artifacts/mockup-sandbox/mockupPreviewPlugin.ts:79-111 | No two discoveries ever overlap, whatever fails. |
| `PreviewRefresh.NothingLost` | artifacts/mockup-sandbox/mockupPreviewPlugin.ts:79-111 | In every run, failures included: when idle, a call came after the last discovery started if and only if that discovery threw and a call came during it; after one that ended well nothing is marked or lost. |
| `PreviewRefresh.FileCurrent` | artifacts/mockup-sandbox/mockupPreviewPlugin.ts:90-99 | When idle after a discovery that ended well, the file is the source generated from it if and only if the latest write succeeded, or left just that; then it has one line for every component found, in order. |
| `PreviewRefresh.ChangeWritten` | artifacts/mockup-sandbox/mockupPreviewPlugin.ts:90-99 | Once a source is remembered, a discovery that ends well writes the file exactly when it found other components, or the same in another order. |
| `PreviewRefresh.PreviewPlugin.Refresh` | artifacts/mockup-sandbox/mockupPreviewPlugin.ts:82-111 | The recursive function from call to settling, calls and failures in between: it throws exactly when its last discovery did, and else returns whether the file was written since the call, by it or by its follow-ups; undisturbed, whether the source found differs from the one remembered, and then the file holds it; a run of the event loop. |
| `PreviewRefresh.PreviewPlugin.Discover` | artifacts/mockup-sandbox/mockupPreviewPlugin.ts:88-110 | The same for a discovery under way. |
| `PreviewRefresh.PreviewPlugin.GoOn` | artifacts/mockup-sandbox/mockupPreviewPlugin.ts:104-108 | The follow-up's answer combined with the own one tells whether either wrote. |
| `PreviewRefresh.FailedWriteSticks` | artifacts/mockup-sandbox/mockupPreviewPlugin.ts:93-99 | From any state whose latest write failed: as long as discoveries find the same source the file stays as the failure left it. |

## Left out

- Transport, RPC, Jito, WebSocket, SQL text and transaction building: each is one step whose outcome is arbitrary.
- Error texts, decision reasons, log lines, events and metric gauges; a rejection names its rule instead.
- Floating-point rounding: SOL amounts in the risk rules are exact reals, and lamports in the pipeline.
- Weak memory orderings: the atomic operations of the decision engine are sequentially consistent here.
- Clock skew: processes and database share one clock; the cache's monotonic instants are readings of it.
- Generation of order ids: an order id is any non-empty string, a pipeline order has a number not used before.
- `OrderManager::process_order`, `execute_via_jito` and `compute_slippage_bounds`: not reached from the execution worker.
- `execute_via_jito_minimal` and `execute_direct`: bundle attempts, fallback and timeout end in one execution outcome.
- The operator-resume check around the decision engine's call at submission, and the exposure that call reads: submission is accepted or refused, and never accepted with amount zero.
- A closed order channel: sending to the queue always succeeds.
- Overflow panics of the backoff duration; a release build's wrapping integers are modelled, a debug build's panics are not.
- `compute_buy_params`, `compute_sell_params`, prices, market cap and progress: derived from the quotes modelled here, some in floating point.
- Token total supply: no quote reads it.
- Unicode: `IsRetriable` lowers ASCII letters only; Base58 strings are sequences of single characters.
- File discovery of the preview plugin: the components found are parameters. `JSON.stringify` is modelled on Unicode scalar values; lone surrogates are not.
- The watcher's polling interval and the database's wallet status: spawn requests come at any time, a timer finds its wallet enabled or not.
- Auxiliary record-keeping: row holders, reservation times of handlers, stamps, counters of runs, sleep, starts and attempts exist for the proofs only.
- Python strategy, machine learning, backtests, circuit breakers, dashboards, API routing and configuration: separate from these mechanisms.
- SubmitHandler.BotService.SubmitOrder: the request runs to its reply; a crash of its process or a dropped request in the middle is a step of the protocol, not of the method.
- LimitBreaks.CancelExact: the direction that breaks the limit is claimed for states with room for one more order and no order stuck before the gate by a failed closing write; such an order holds back its part of the limit for good.
- CommittedRows.CommitExact: order ids are assumed distinct, as the engine generates them; the model itself lets an order manager answer any id.
- OrderProcessing.OrderManager.ProcessOrder: a task runs to its end; an engine that is shut down in the middle is not modelled.

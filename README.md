# Boatload in Dafny

Boatload batches work in the background. An `AsyncBatchProcessor` is a facade:
- it validates its arguments;
- it puts tagged messages (`[:item, x]`, `[:process, nil]`, `[:shutdown, nil]`) on a queue, bounded for items only;
- it lazily starts one worker thread and one timer thread.

The `Worker` is the single consumer of that queue. It appends items to a backlog. It flushes the backlog through the user's block:
- when the backlog reaches `max_backlog_size` (if that is positive);
- on `:process`;
- once more on `:shutdown`, after which it stops.

A flush clears the backlog only when the block returns. When the block raises, the items stay and are retried on the next flush.

The project has four modules:

- `Messages` (`messages.dfy`) is the queue protocol. `Op<T>` has a constructor for each of the three tags and one for any other tag. It also defines:
  - `Payloads`, the items a queue carries, in order;
  - `Controls`, the number of flush requests in a queue;
  - `ItemOps`, what `push` enqueues.
- `BoatloadWorker` (`worker.dfy`) is `lib/boatload/worker.rb`.
  - The `Worker` class holds the backlog as a field that `Run` and `Process` reassign.
  - `Run` loops over the queue, given as a sequence popped from the front. The end of the sequence stands for a `pop` that would block.
  - The user block is an oracle, `Block<T> = (nat, seq<T>) -> bool`: whether its k-th invocation raises on the batch it receives.
  - Every invocation is recorded as a `Call` (batch, context, raised), and every error the Worker logs as an `Event`.
  - The pure functions `Flush`, `Step` and `Loop` specify one flush, one message and one run. `Worker.Run` is proved equal to `Loop`, and the lemmas are stated about `Loop`.
- `Facade` (`async_batch_processor.dfy`) is `lib/boatload/async_batch_processor.rb`.
  - `Validate` holds the construction guards. `Create` is `new`.
  - The `AsyncBatchProcessor` class holds the queue as a sequence, and alive flags and start counters for the two threads.
  - The worker thread's progress is modelled in two places:
    - `WorkerProgress(n)` lets the worker pop `n` messages at some point between calls;
    - `Shutdown` joins the worker, which pops everything up to its `:shutdown`.
  - `push` or `process` after `shutdown` starts a new worker thread and a new timer thread, because both are dead by then and `ensure_threads_running!` restarts them. The model follows that: `Push` after `Shutdown` sets `workerAlive` again and counts one more start.
- `Scenarios` (`scenarios.dfy`) restates the repository's tests as client methods. Each one is proved from the contracts alone.

## Model

| member | source | states |
|---|---|---|
| BoatloadWorker.Worker.constructor | lib/boatload/worker.rb:6-13 | a new Worker keeps its size, context and block, has an empty backlog, and has made no call |
| BoatloadWorker.Worker.Process | lib/boatload/worker.rb:45-50 | the block is invoked once with the current backlog and context; its success empties the backlog, its failure keeps it and logs the error (as `Flush`) |
| BoatloadWorker.Worker.Run | lib/boatload/worker.rb:15-41 | the loop's final state, the number of messages popped and the reason it stopped are those of the specification `Loop` over the queue |
| BoatloadWorker.Loop | lib/boatload/worker.rb:18-38 | a run never pops more messages than the queue holds, and it pops all of them when it stops because the queue ran out |
| BoatloadWorker.StopsAtFirstStop | lib/boatload/worker.rb:27-36 | a run stops at the first `:shutdown` or unknown tag, and says which one it met; it runs to the end of the queue exactly when the queue has neither |
| BoatloadWorker.ThresholdReached | lib/boatload/worker.rb:52-54 | defines `threshold_reached?`: a positive size that the backlog length has reached; its effect is stated by `ItemAppends` and `BelowThreshold` |
| BoatloadWorker.Flush | lib/boatload/worker.rb:45-50 | defines one flush as a state change; what it promises is stated by `FlushOutcome` and `FlushConserves` |
| BoatloadWorker.Step | lib/boatload/worker.rb:21-37 | defines the dispatch on one popped message; what it promises is stated by `ItemAppends`, `RequestFlushes`, `StepConserves` and `StepRetries` |
| BoatloadWorker.ItemAppends | lib/boatload/worker.rb:22-24 | an item goes to the end of the backlog; a flush of the backlog including it, from any backlog, follows iff `max_backlog_size > 0` and the length reaches it; otherwise nothing else changes |
| BoatloadWorker.FlushOutcome | lib/boatload/worker.rb:45-50 | every flush, by threshold, `:process` or `:shutdown`, makes exactly one call, even with an empty backlog, keeping earlier calls and passing the backlog and the context unchanged; on success the backlog is empty and nothing is logged; on failure the backlog is unchanged and the error is logged |
| BoatloadWorker.RequestFlushes | lib/boatload/worker.rb:25-29 | `:process` and `:shutdown` flush the backlog as it stands and do nothing else |
| BoatloadWorker.LoopAppend | lib/boatload/worker.rb:18-38 | popping a queue in two runs is popping it in one, as long as the first part does not end the loop |
| BoatloadWorker.ShutdownIsLast | lib/boatload/worker.rb:27-34 | `:shutdown` makes exactly one final flush after the messages before it and ends the run; nothing after it is popped |
| BoatloadWorker.UnknownEndsRun | lib/boatload/worker.rb:35-40 | an unknown tag ends the run without a flush and logs "Unknown operation" with that tag; nothing after it is popped |
| BoatloadWorker.CallsGrow | lib/boatload/worker.rb:45-47 | a run only appends calls; earlier calls are never changed |
| BoatloadWorker.FlushConserves | lib/boatload/worker.rb:45-50 | a flush loses no item: the accepted items followed by the backlog are the same before and after, whether the block returns or raises |
| BoatloadWorker.StepConserves | lib/boatload/worker.rb:21-37 | one message extends the accepted items followed by the backlog by exactly that message's payload |
| BoatloadWorker.NothingLost | lib/boatload/worker.rb:18-38 | after any run, the accepted items followed by the backlog are the earlier ones followed by the payloads of the popped messages, in queue order, whatever the block does |
| BoatloadWorker.OneCallPerRequest | lib/boatload/worker.rb:24-29 | with a size of 0 the block is called exactly once per `:process` and `:shutdown` popped |
| BoatloadWorker.NoNewFailures | lib/boatload/worker.rb:45-47 | with a block that never raises, no call made during a run raises |
| BoatloadWorker.ShutdownDeliversAll | lib/boatload/worker.rb:27-34 | with a block that never raises, a queue ending in `:shutdown` is popped to its end, the backlog ends empty, and the block has accepted every pending item in order |
| BoatloadWorker.AllCallsSucceeded | lib/boatload/worker.rb:46-47 | when no call raised, the accepted items are the concatenation of every batch the block was given |
| BoatloadWorker.StepRetries | lib/boatload/worker.rb:45-50 | one message keeps the retry chain: a failed batch starts the next call's batch, and until that call it starts the backlog |
| BoatloadWorker.FailedBatchRetried | lib/boatload/worker.rb:45-50 | a run keeps the retry chain, so a failed batch is retried whole, at the front of the next call |
| BoatloadWorker.BelowThreshold | lib/boatload/worker.rb:52-54 | items that keep the backlog below a positive threshold, or any items under a threshold of 0, are only appended and cause no call |
| BoatloadWorker.ThresholdFlushesBatch | lib/boatload/worker.rb:22-24 | from an empty backlog, N items under a threshold of N cause exactly one flush, of exactly those N items, when the N-th is popped, whether the block returns or raises |
| Messages.PayloadsOfItemOps | lib/boatload/async_batch_processor.rb:67-73 | the item messages enqueued for some items carry exactly those items in order, end no run and request no flush |
| Facade.Validate | lib/boatload/async_batch_processor.rb:32-35 | construction is accepted iff `delivery_interval >= 0`, `max_backlog_size >= 0`, `max_queue_size > 0` and a block is given; otherwise the error is the first failing guard, in the source's order |
| Facade.Create | lib/boatload/async_batch_processor.rb:24-57 | `new` raises `ArgumentError` exactly when validation rejects, with that error; otherwise it yields a fresh processor with an empty queue, a fresh Worker with an empty backlog, and no thread alive |
| Facade.AsyncBatchProcessor.constructor | lib/boatload/async_batch_processor.rb:37-56 | a processor built from valid settings has an empty queue, a Worker sharing its size, context and block, and has started no thread |
| Facade.Admitted | lib/boatload/async_batch_processor.rb:67-73 | of n pushed items, the number admitted is at most n; if some are refused the queue is full; if any are admitted the bound still holds |
| Facade.AsyncBatchProcessor.Push | lib/boatload/async_batch_processor.rb:64-76 | one item message per argument, in order, for the admitted prefix; `Pushed` iff all are admitted, else `QueueOverflow` with the bound; a queue within its bound stays within it; both threads are alive afterwards, and each was started iff it was not alive |
| Facade.AsyncBatchProcessor.Process | lib/boatload/async_batch_processor.rb:82-87 | exactly one `:process` is appended, with no bound check, after the threads are ensured running |
| Facade.AsyncBatchProcessor.Shutdown | lib/boatload/async_batch_processor.rb:94-102 | after the threads are ensured running, one `:shutdown` is appended with no bound check; the timer stops; the join leaves the queue empty, the worker dead, and the Worker in the state of a run over the old queue followed by `:shutdown` |
| Facade.AsyncBatchProcessor.EnsureThreadsRunning | lib/boatload/async_batch_processor.rb:106-113 | both threads are alive afterwards, and a thread is started for each that was not alive, and only for those |
| Facade.AsyncBatchProcessor.StartWorker | lib/boatload/async_batch_processor.rb:129-133 | the worker thread is alive afterwards; a new one is started only if none was alive |
| Facade.AsyncBatchProcessor.StartTimer | lib/boatload/async_batch_processor.rb:123-127 | the timer thread is alive afterwards; a new one is started only if none was alive |
| Facade.AsyncBatchProcessor.WorkerProgress | lib/boatload/async_batch_processor.rb:132 | the worker thread pops the next n messages from the front of the queue, and the Worker's state is that of a run over them |
| Scenarios.UnknownTagLogged | test/boatload/worker_test.rb:18-22 | the single message `[:fake_operation, 42]` is popped, makes no call, and logs "Unknown operation" |
| Scenarios.TwoBatches | test/boatload/worker_test.rb:54-75 | items 1-3, `:process`, items 4-6, `:shutdown` give exactly two calls, which receive 1 to 6 in order |
| Scenarios.RetryAfterFailure | test/boatload/worker_test.rb:89-103 | a block that raises on `[1]` is called with `[1]` (raising) and then with `[1, 2]`, and the backlog ends empty |
| Scenarios.RejectedConstruction | test/boatload/async_batch_processor_test.rb:14-24 | a missing block or a negative `max_backlog_size` raises `ArgumentError` |
| Scenarios.LazyStart | test/boatload/async_batch_processor_test.rb:26-45 | no thread is alive after construction; the first `push` starts one of each; a second `push` starts none |
| Scenarios.ThresholdPush | test/boatload/async_batch_processor_test.rb:47-59 | with `max_backlog_size` N, pushing N items and letting the worker pop them yields one call with exactly those items |
| Scenarios.DeliverInOrder | test/boatload/async_batch_processor_test.rb:99-111 | any items that fit in the queue, pushed and then shut down, reach the block in order, and the worker thread is dead afterwards |
| Scenarios.VariadicPush | test/async_batch_processor_test.rb:32-38 | `push(1)` then `push(1, 2, 3)` enqueue four item messages in argument order |
| Scenarios.PartialPush | lib/boatload/async_batch_processor.rb:68-70 | with a bound of 2, `push(1, 2, 3)` enqueues 1 and 2 and then raises `QueueOverflow`; a later `process` is still enqueued past the bound |

## Left out

- `lib/boatload/timer.rb` is not part of this model. It is time-driven (`sleep`, `Thread.stop`). Its only effect on the queue, enqueuing `:process` now and then, is a `Process` call the model does not schedule.
- Threads, the mutex, `Thread#alive?`, `join` and `exit` are modelled only as alive flags and start counters. Interleavings are not modelled. The worker thread's progress happens only at `WorkerProgress` and at `Shutdown`'s join.
- A blocking `Queue#pop` is modelled as the end of the sequence, where `Run` returns `QueueEmpty`.
- BoatloadWorker.Worker.Run: the "Starting Worker in the background..." info line is not in the log. The log keeps only the errors the Worker reports, so that a run split into pieces equals one run.
- The outer `rescue` of `run` is not modelled separately. Its only effect is to log the unknown tag, which `UnknownOperation` records. `process` rescues everything the oracle can raise.
- The `begin`/`rescue` around the shutdown flush is not modelled. `process` already rescues every `StandardError`, so it is never reached.
- Exceptions that are not a `StandardError` are not modelled. They would escape `process` and end the thread.
- The logger passed to the block, and the message text of logged errors, are not recorded. Each call records the batch and the context.
- The block does not mutate the backlog it receives. In the source it gets the live array and could alias it.
- `delivery_interval` is modelled as an integer. The source also accepts a float; only its sign is checked there.
- The top-level `test/worker_test.rb` is stale: it builds a Worker without the required `logger:` keyword. The scenarios follow `test/boatload/`, except `VariadicPush`, which follows the top-level `test/async_batch_processor_test.rb`.

/** The AsyncBatchProcessor facade of lib/boatload/async_batch_processor.rb: it
    validates its arguments, owns the queue and the Worker, enqueues items and
    control messages, and starts the worker and timer threads lazily, at most one
    of each at a time.

    Threads are modelled by two flags saying whether each thread is alive, and by
    two counters of how many threads of each kind were ever created. The
    worker thread's progress is `WorkerProgress` (it pops some of the queued
    messages) and `Shutdown`'s join (it pops everything up to `:shutdown`). */
module Facade {
  import opened Messages
  import opened BoatloadWorker

  /** The `max_queue_size` used when the caller gives none. */
  const DefaultMaxQueueSize: nat := 1000

  /** Why construction raises `ArgumentError`. */
  datatype ConfigError =
    | NegativeDeliveryInterval  // "delivery_interval must not be negative"
    | NegativeMaxBacklogSize    // "max_backlog_size must not be negative"
    | NonPositiveMaxQueueSize   // "max_queue_size must be positive"
    | MissingBlock              // "You must give a block"

  /** Construction arguments that passed validation. */
  datatype Settings = Settings(deliveryInterval: nat, maxBacklogSize: nat, maxQueueSize: nat)

  datatype Validation = Accepted(settings: Settings) | Rejected(error: ConfigError)

  datatype Option<T> = None | Some(value: T)

  /** What `push` ends with: `nil`, or `QueueOverflow` naming the bound. */
  datatype PushResult = Pushed | QueueOverflow(maxQueueSize: nat)

  /** The guards of `initialize`, checked in the order the source raises them. */
  function Validate(deliveryInterval: int, maxBacklogSize: int, maxQueueSize: int, blockGiven: bool): (r: Validation)
    ensures r.Accepted? <==> deliveryInterval >= 0 && maxBacklogSize >= 0 && maxQueueSize > 0 && blockGiven
    ensures r.Accepted? ==>
      r.settings.deliveryInterval == deliveryInterval && r.settings.maxBacklogSize == maxBacklogSize &&
      r.settings.maxQueueSize == maxQueueSize && r.settings.maxQueueSize > 0
    ensures r == Rejected(NegativeDeliveryInterval) <==> deliveryInterval < 0
    ensures r == Rejected(NegativeMaxBacklogSize) <==> deliveryInterval >= 0 && maxBacklogSize < 0
    ensures r == Rejected(NonPositiveMaxQueueSize) <==> deliveryInterval >= 0 && maxBacklogSize >= 0 && maxQueueSize <= 0
  {
    if deliveryInterval < 0 then Rejected(NegativeDeliveryInterval)
    else if maxBacklogSize < 0 then Rejected(NegativeMaxBacklogSize)
    else if maxQueueSize <= 0 then Rejected(NonPositiveMaxQueueSize)
    else if !blockGiven then Rejected(MissingBlock)
    else Accepted(Settings(deliveryInterval, maxBacklogSize, maxQueueSize))
  }

  /** How many of `n` pushed items get enqueued when `queued` messages are already
      waiting: `push` checks the bound before each item and stops at the first
      item that finds the queue full. */
  function Admitted(queued: nat, n: nat, maxQueueSize: nat): (k: nat)
    ensures k <= n
    ensures k < n ==> queued + k >= maxQueueSize
    ensures 0 < k ==> queued + k <= maxQueueSize
  {
    if queued >= maxQueueSize then 0
    else if n <= maxQueueSize - queued then n
    else maxQueueSize - queued
  }

  class AsyncBatchProcessor<T, C> {
    const settings: Settings
    const worker: Worker<T, C>
    var queue: seq<Op<T>>
    var workerAlive: bool
    var timerAlive: bool
    var workerStarts: nat  // how many worker threads `Thread.new` has created
    var timerStarts: nat   // how many timer threads `Thread.new` has created

    /** The facade's invariant: a positive queue bound, the Worker built from the
        same settings, and no `:shutdown` waiting in the queue between calls. */
    ghost predicate Valid()
      reads this
    {
      settings.maxQueueSize > 0 && worker.maxBacklogSize == settings.maxBacklogSize && NoStop(queue)
    }

    /** Both threads are alive afterwards, and a thread was started exactly for
        each of them that was not alive before. */
    twostate predicate StartedIfNeeded()
      reads this
    {
      workerAlive && timerAlive &&
      workerStarts == old(workerStarts) + (if old(workerAlive) then 0 else 1) &&
      timerStarts == old(timerStarts) + (if old(timerAlive) then 0 else 1)
    }

    /** `initialize` once its guards pass: an empty queue, a fresh Worker, no thread started. */
    constructor (settings: Settings, context: C, block: Block<T>)
      requires settings.maxQueueSize > 0
      ensures Valid() && this.settings == settings && fresh(worker)
      ensures worker.context == context && worker.block == block && worker.Current() == State([], [], [])
      ensures queue == [] && !workerAlive && !timerAlive && workerStarts == 0 && timerStarts == 0
    {
      this.settings := settings;
      worker := new Worker(settings.maxBacklogSize, context, block);
      queue := [];
      workerAlive, timerAlive := false, false;
      workerStarts, timerStarts := 0, 0;
    }

    /** `start_worker_thread!`: does nothing while the worker thread is alive. */
    method StartWorker()
      modifies this`workerAlive, this`workerStarts
      ensures workerAlive
      ensures workerStarts == old(workerStarts) + (if old(workerAlive) then 0 else 1)
    {
      if workerAlive {
        return;
      }
      workerAlive := true;
      workerStarts := workerStarts + 1;
    }

    /** `start_timer_thread!`: does nothing while the timer thread is alive. */
    method StartTimer()
      modifies this`timerAlive, this`timerStarts
      ensures timerAlive
      ensures timerStarts == old(timerStarts) + (if old(timerAlive) then 0 else 1)
    {
      if timerAlive {
        return;
      }
      timerAlive := true;
      timerStarts := timerStarts + 1;
    }

    /** `ensure_threads_running!`: nothing to do when both threads are alive;
        otherwise start whichever is not. */
    method EnsureThreadsRunning()
      modifies this`workerAlive, this`workerStarts, this`timerAlive, this`timerStarts
      ensures StartedIfNeeded()
    {
      if workerAlive && timerAlive {
        return;
      }
      StartWorker();
      StartTimer();
    }

    /** `push(*items)`: one item message per argument, in order, each admitted only
        if the queue is below its bound at that moment; the first item that finds
        it full raises `QueueOverflow`, keeping the items enqueued before it. */
    method Push(items: seq<T>) returns (r: PushResult)
      requires Valid()
      modifies this`queue, this`workerAlive, this`workerStarts, this`timerAlive, this`timerStarts
      ensures Valid() && StartedIfNeeded()
      ensures var k := Admitted(|old(queue)|, |items|, settings.maxQueueSize);
        queue == old(queue) + ItemOps(items[..k]) &&
        (r == Pushed <==> k == |items|) &&
        (r != Pushed ==> r == QueueOverflow(settings.maxQueueSize))
      ensures |old(queue)| <= settings.maxQueueSize ==> |queue| <= settings.maxQueueSize
    {
      EnsureThreadsRunning();
      ghost var started := queue;
      var i := 0;
      while i < |items|
        invariant i <= |items|
        invariant queue == started + ItemOps(items[..i])
        invariant 0 < i ==> |started| + i <= settings.maxQueueSize
        invariant Valid() && StartedIfNeeded()
      {
        if |queue| >= settings.maxQueueSize {
          return QueueOverflow(settings.maxQueueSize);
        }
        assert items[..i + 1] == items[..i] + [items[i]];
        queue := queue + [ItemMsg(items[i])];
        i := i + 1;
      }
      assert items[..i] == items;
      return Pushed;
    }

    /** `process`: one `:process` message, with no bound check. */
    method Process()
      requires Valid()
      modifies this`queue, this`workerAlive, this`workerStarts, this`timerAlive, this`timerStarts
      ensures Valid() && StartedIfNeeded()
      ensures queue == old(queue) + [ProcessMsg]
    {
      EnsureThreadsRunning();
      queue := queue + [ProcessMsg];
    }

    /** The background worker thread pops the next `n` queued messages and
        handles them; in between, the queue bound sees fewer waiting messages. */
    method WorkerProgress(n: nat)
      requires Valid() && workerAlive && n <= |queue|
      modifies this`queue, worker
      ensures Valid() && queue == old(queue)[n..]
      ensures worker.Current() == Loop(worker.Cfg(), old(worker.Current()), old(queue)[..n]).final
    {
      var popped := queue[..n];
      assert NoStop(popped) by {
        forall i | 0 <= i < |popped| ensures !popped[i].Stops() {
          assert popped[i] == queue[i];
        }
      }
      var consumed, exit := worker.Run(popped);
      queue := queue[n..];
    }

    /** `shutdown`: enqueue `:shutdown` with no bound check, stop the timer
        thread, and wait for the worker thread, which handles every queued message
        and then the final flush, and exits. */
    method Shutdown()
      requires Valid()
      modifies this`queue, this`workerAlive, this`workerStarts, this`timerAlive, this`timerStarts, worker
      ensures Valid() && queue == [] && !workerAlive && !timerAlive
      ensures workerStarts == old(workerStarts) + (if old(workerAlive) then 0 else 1)
      ensures timerStarts == old(timerStarts) + (if old(timerAlive) then 0 else 1)
      ensures worker.Current() == Loop(worker.Cfg(), old(worker.Current()), old(queue) + [ShutdownMsg]).final
    {
      EnsureThreadsRunning();
      var pending := queue;
      queue := queue + [ShutdownMsg];
      timerAlive := false;
      ShutdownIsLast(worker.Cfg(), worker.Current(), pending, []);
      assert pending + [ShutdownMsg] + [] == queue;
      var consumed, exit := worker.Run(queue);
      queue := queue[consumed..];
      workerAlive := false;
    }
  }

  /** `AsyncBatchProcessor.new`: raises `ArgumentError` for the first argument
      that fails validation, and otherwise builds a processor that has started nothing. */
  method Create<T, C>(deliveryInterval: int, maxBacklogSize: int, maxQueueSize: int, context: C, block: Option<Block<T>>)
    returns (r: Construction<T, C>)
    ensures var v := Validate(deliveryInterval, maxBacklogSize, maxQueueSize, block.Some?);
      (r.ArgumentError? <==> v.Rejected?) &&
      (r.ArgumentError? ==> r.error == v.error) &&
      (r.Built? ==>
        fresh(r.processor) && fresh(r.processor.worker) && r.processor.Valid() &&
        r.processor.settings == v.settings && r.processor.queue == [] &&
        !r.processor.workerAlive && !r.processor.timerAlive &&
        r.processor.worker.Current() == State([], [], []) &&
        r.processor.worker.context == context && r.processor.worker.block == block.value)
  {
    var v := Validate(deliveryInterval, maxBacklogSize, maxQueueSize, block.Some?);
    if v.Rejected? {
      return ArgumentError(v.error);
    }
    var p := new AsyncBatchProcessor(v.settings, context, block.value);
    return Built(p);
  }

  datatype Construction<T, C> = Built(processor: AsyncBatchProcessor<T, C>) | ArgumentError(error: ConfigError)
}

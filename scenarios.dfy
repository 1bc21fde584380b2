/** Client code in the manner of the repository's tests: each method drives the
    Worker or the facade only through their verified contracts and states what
    the block ends up receiving. */
module Scenarios {
  import opened Messages
  import opened BoatloadWorker
  import opened Facade

  /** The queue of the two-batch scenario, before its `:shutdown`: it ends no
      run, carries the items 1 to 6 and one flush request. */
  lemma TwoBatchesQueue(pre: seq<Op<int>>)
    requires pre == ItemOps([1, 2, 3]) + [ProcessMsg] + ItemOps([4, 5, 6])
    ensures NoStop(pre) && Payloads(pre) == [1, 2, 3, 4, 5, 6] && Controls(pre + [ShutdownMsg]) == 2
  {
    var first, second := ItemOps([1, 2, 3]), ItemOps([4, 5, 6]);
    var process: seq<Op<int>> := [ProcessMsg];
    var stop: seq<Op<int>> := [ShutdownMsg];
    PayloadsOfItemOps([1, 2, 3]);
    PayloadsOfItemOps([4, 5, 6]);
    assert Payloads(process) == [] && Controls(process) == 1 && Controls(stop) == 1 by {
      assert process[1..] == [] && stop[1..] == [];
    }
    PayloadsAppend(first, process);
    ControlsAppend(first, process);
    PayloadsAppend(first + process, second);
    ControlsAppend(first + process, second);
    ControlsAppend(pre, stop);
    forall i | 0 <= i < |pre| ensures !pre[i].Stops() {
      if i < 3 { assert pre[i] == first[i]; }
      else if i > 3 { assert pre[i] == second[i - 4]; }
    }
  }

  /** Items 1, 2, 3, `:process`, items 4, 5, 6, `:shutdown`, no threshold and a
      block that returns: the block is called twice and receives the six items in order. */
  method TwoBatches() returns (calls: nat, received: seq<int>)
    ensures calls == 2 && received == [1, 2, 3, 4, 5, 6]
  {
    var w := new Worker<int, string>(0, "batches_processed", (k: nat, b: seq<int>) => false);
    var pre := ItemOps([1, 2, 3]) + [ProcessMsg] + ItemOps([4, 5, 6]);
    var q := pre + [ShutdownMsg];
    ghost var s := w.Current();
    ghost var cfg := w.Cfg();
    var consumed, exit := w.Run(q);
    TwoBatchesQueue(pre);
    ShutdownDeliversAll(cfg, s, pre);
    OneCallPerRequest(cfg, s, q);
    assert q[..|q|] == q;
    NoNewFailures(cfg, s, q);
    AllCallsSucceeded(w.calls);
    calls := |w.calls|;
    received := Batches(w.calls);
  }

  /** The block raises on `[1]` and returns otherwise: item 1, `:process`, item 2,
      `:shutdown` give a failed call with `[1]`, then a successful one with `[1, 2]`. */
  method RetryAfterFailure() returns (calls: seq<Call<int, string>>, backlog: seq<int>)
    ensures calls == [Call([1], "", true), Call([1, 2], "", false)] && backlog == []
  {
    var w := new Worker<int, string>(0, "", (k: nat, b: seq<int>) => b == [1]);
    var q := [ItemMsg(1), ProcessMsg, ItemMsg(2), ShutdownMsg];
    ghost var cfg := w.Cfg();
    ghost var s0 := w.Current();
    var consumed, exit := w.Run(q);
    LoopUnfold(cfg, s0, q);
    ghost var s1 := Step(cfg, s0, q[0]);
    LoopUnfold(cfg, s1, q[1..]);
    ghost var s2 := Step(cfg, s1, q[1]);
    LoopUnfold(cfg, s2, q[2..]);
    ghost var s3 := Step(cfg, s2, q[2]);
    assert q[1..][1..] == q[2..] && q[2..][1..] == q[3..];
    LoopUnfold(cfg, s3, q[3..]);
    assert s1 == State([1], [], []);
    assert s2 == State([1], [Call([1], "", true)], [FlushFailed([1])]);
    assert s3 == State([1, 2], [Call([1], "", true)], [FlushFailed([1])]);
    assert !cfg.block(1, [1, 2]);
    calls := w.calls;
    backlog := w.backlog;
  }

  /** The single message `[:fake_operation, 42]` ends `run`: it is popped,
      nothing is flushed, and "Unknown operation" is logged. */
  method UnknownTagLogged() returns (consumed: nat, exit: Exit, calls: nat, log: seq<Event<int>>)
    ensures consumed == 1 && exit == UnknownTag && calls == 0 && log == [UnknownOperation("fake_operation")]
  {
    var w := new Worker<int, string>(0, "", (k: nat, b: seq<int>) => false);
    var q: seq<Op<int>> := [UnknownMsg("fake_operation")];
    ghost var s := w.Current();
    consumed, exit := w.Run(q);
    UnknownEndsRun(w.Cfg(), s, [], "fake_operation", []);
    assert [] + [UnknownMsg("fake_operation")] + [] == q;
    assert Loop(w.Cfg(), s, []).final == s;
    calls := |w.calls|;
    log := w.log;
  }

  /** Pushing any items that fit in the queue and then shutting down hands every
      item to the block, in order, whatever the threshold: nothing is lost. */
  method DeliverInOrder<T(!new), C>(xs: seq<T>, maxBacklogSize: nat, maxQueueSize: nat, context: C)
    returns (pushed: PushResult, received: seq<T>, workerAlive: bool)
    requires 0 < maxQueueSize && |xs| <= maxQueueSize
    ensures pushed == Pushed && received == xs && !workerAlive
  {
    var p := new AsyncBatchProcessor(Settings(0, maxBacklogSize, maxQueueSize), context, (k: nat, b: seq<T>) => false);
    pushed := p.Push(xs);
    assert xs[..|xs|] == xs;
    ghost var s := p.worker.Current();
    ghost var cfg := p.worker.Cfg();
    ghost var queued := p.queue;
    assert s == State([], [], []) && queued == ItemOps(xs);
    p.Shutdown();
    assert NeverRaises(cfg.block);
    PayloadsOfItemOps(xs);
    ShutdownDeliversAll(cfg, s, queued);
    NoNewFailures(cfg, s, queued + [ShutdownMsg]);
    assert Delivered(p.worker.calls) == xs;
    AllCallsSucceeded(p.worker.calls);
    received := Batches(p.worker.calls);
    workerAlive := p.workerAlive;
  }

  /** With `max_backlog_size` N, pushing N items makes the worker thread flush
      once, with exactly those N items, as it pops the N-th. */
  method ThresholdPush<T, C>(xs: seq<T>, context: C) returns (calls: seq<Call<T, C>>, backlog: seq<T>)
    requires 0 < |xs| <= DefaultMaxQueueSize
    ensures calls == [Call(xs, context, false)] && backlog == []
  {
    var p := new AsyncBatchProcessor(Settings(0, |xs|, DefaultMaxQueueSize), context, (k: nat, b: seq<T>) => false);
    var pushed := p.Push(xs);
    assert xs[..|xs|] == xs;
    ghost var s := p.worker.Current();
    assert s == State([], [], []) && p.queue == ItemOps(xs);
    p.WorkerProgress(|xs|);
    ThresholdFlushesBatch(p.worker.Cfg(), s, xs);
    assert ItemOps(xs)[..|xs|] == ItemOps(xs);
    calls := p.worker.calls;
    backlog := p.worker.backlog;
  }

  /** A new processor has started no thread; the first `push` starts one worker
      thread and one timer thread, and a second `push` starts none. */
  method LazyStart() returns (aliveAtFirst: bool, workerStarts: nat, timerStarts: nat)
    ensures !aliveAtFirst && workerStarts == 1 && timerStarts == 1
  {
    var p := new AsyncBatchProcessor<int, string>(Settings(0, 0, DefaultMaxQueueSize), "", (k: nat, b: seq<int>) => false);
    aliveAtFirst := p.workerAlive || p.timerAlive;
    var r1 := p.Push([1]);
    var r2 := p.Push([2, 3]);
    workerStarts := p.workerStarts;
    timerStarts := p.timerStarts;
  }

  /** `push(1)` enqueues one item message and `push(1, 2, 3)` three more, in order. */
  method VariadicPush() returns (queued: seq<Op<int>>)
    ensures queued == [ItemMsg(1), ItemMsg(1), ItemMsg(2), ItemMsg(3)]
  {
    var p := new AsyncBatchProcessor<int, string>(Settings(0, 0, DefaultMaxQueueSize), "", (k: nat, b: seq<int>) => false);
    var r1 := p.Push([1]);
    var r2 := p.Push([1, 2, 3]);
    queued := p.queue;
  }

  /** A queue bound of 2: pushing 1, 2, 3 enqueues 1 and 2 and raises
      `QueueOverflow` before 3; `:process` is still admitted past the bound. */
  method PartialPush() returns (pushed: PushResult, queued: seq<Op<int>>)
    ensures pushed == QueueOverflow(2) && queued == [ItemMsg(1), ItemMsg(2), ProcessMsg]
  {
    var p := new AsyncBatchProcessor<int, string>(Settings(0, 0, 2), "", (k: nat, b: seq<int>) => false);
    pushed := p.Push([1, 2, 3]);
    p.Process();
    queued := p.queue;
  }

  /** Construction without a block, or with a negative `max_backlog_size`, raises
      `ArgumentError`. */
  method RejectedConstruction() returns (noBlock: Construction<int, string>, negative: Construction<int, string>)
    ensures noBlock == ArgumentError(MissingBlock) && negative == ArgumentError(NegativeMaxBacklogSize)
  {
    noBlock := Create(0, 0, DefaultMaxQueueSize, "", None);
    negative := Create(0, -1, DefaultMaxQueueSize, "", Some((k: nat, b: seq<int>) => false));
  }
}

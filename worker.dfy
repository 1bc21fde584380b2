/** The Worker of lib/boatload/worker.rb: the single consumer of the queue. It
    owns the backlog, appends items to it, and flushes it through the user block
    on a size threshold, on `:process` and, once more, on `:shutdown`.

    The user block is an oracle: whether its k-th invocation raises, given the
    backlog it receives. The error log keeps only the events the Worker itself
    reports as errors. */
module BoatloadWorker {
  import opened Messages

  /** The user block as the Worker sees it: `raises(k, batch)` says whether its
      k-th invocation (counting from 0) raises when given `batch`. */
  type Block<!T> = (nat, seq<T>) -> bool

  /** One invocation of the user block: the backlog and the context it was given,
      and whether it raised. */
  datatype Call<T, C> = Call(batch: seq<T>, context: C, raised: bool)

  /** The errors the Worker reports to its logger. */
  datatype Event<T> =
    | FlushFailed(batch: seq<T>)     // "Error encountered while processing backlog"
    | UnknownOperation(tag: string)  // "Unknown operation: ..." caught by `run`

  /** Why `run` returned: it handled `:shutdown`, it met an unknown tag, or the
      queue has nothing more (a real `Queue#pop` would block there). */
  datatype Exit = ShutdownDone | UnknownTag | QueueEmpty

  /** The Worker's construction-time settings. */
  datatype Config<!T, C> = Config(maxBacklogSize: nat, context: C, block: Block<T>)

  /** The Worker's mutable state: the backlog, every block invocation so far, the error log. */
  datatype State<T, C> = State(backlog: seq<T>, calls: seq<Call<T, C>>, log: seq<Event<T>>)

  /** What one `run` leaves behind, how many messages it popped, and why it stopped. */
  datatype Outcome<T, C> = Outcome(final: State<T, C>, consumed: nat, exit: Exit)

  /** `threshold_reached?`: automatic flushing is on and the backlog has reached its size. */
  predicate ThresholdReached(maxBacklogSize: nat, length: nat) {
    maxBacklogSize > 0 && length >= maxBacklogSize
  }

  /** `process`: hand the backlog to the block; clear it if the block returns,
      keep it and log the error if the block raises. */
  function Flush<T, C>(cfg: Config<T, C>, s: State<T, C>): State<T, C> {
    var raised := cfg.block(|s.calls|, s.backlog);
    State(
      if raised then s.backlog else [],
      s.calls + [Call(s.backlog, cfg.context, raised)],
      if raised then s.log + [FlushFailed(s.backlog)] else s.log)
  }

  /** The effect of one popped message on the Worker's state. */
  function Step<T, C>(cfg: Config<T, C>, s: State<T, C>, op: Op<T>): State<T, C> {
    match op
    case ItemMsg(x) =>
      var appended := s.(backlog := s.backlog + [x]);
      if ThresholdReached(cfg.maxBacklogSize, |appended.backlog|) then Flush(cfg, appended) else appended
    case ProcessMsg => Flush(cfg, s)
    case ShutdownMsg => Flush(cfg, s)
    case UnknownMsg(tag) => s.(log := s.log + [UnknownOperation(tag)])
  }

  /** `run` over the messages of `queue`, popped from the front: it stops right
      after the first `:shutdown` or unknown tag, or when the queue is used up. */
  function Loop<T, C>(cfg: Config<T, C>, s: State<T, C>, queue: seq<Op<T>>): (r: Outcome<T, C>)
    ensures r.consumed <= |queue|
    ensures r.exit == QueueEmpty ==> r.consumed == |queue|
    decreases |queue|
  {
    if queue == [] then Outcome(s, 0, QueueEmpty)
    else
      var next := Step(cfg, s, queue[0]);
      if queue[0].ShutdownMsg? then Outcome(next, 1, ShutdownDone)
      else if queue[0].UnknownMsg? then Outcome(next, 1, UnknownTag)
      else
        var rest := Loop(cfg, next, queue[1..]);
        Outcome(rest.final, rest.consumed + 1, rest.exit)
  }

  /** Shift an outcome by `n` messages popped before it. */
  function After<T, C>(o: Outcome<T, C>, n: nat): Outcome<T, C> {
    o.(consumed := o.consumed + n)
  }

  /** One unfolding of `Loop` on a non-empty queue. */
  lemma LoopUnfold<T, C>(cfg: Config<T, C>, s: State<T, C>, queue: seq<Op<T>>)
    requires queue != []
    ensures Loop(cfg, s, queue) ==
      if queue[0].ShutdownMsg? then Outcome(Step(cfg, s, queue[0]), 1, ShutdownDone)
      else if queue[0].UnknownMsg? then Outcome(Step(cfg, s, queue[0]), 1, UnknownTag)
      else After(Loop(cfg, Step(cfg, s, queue[0]), queue[1..]), 1)
  {
  }

  /** `run` pops up to and including the first `:shutdown` or unknown tag and no
      further; it reports which of the two it met, and it uses the whole queue up
      exactly when the queue holds neither. */
  lemma {:induction false} StopsAtFirstStop<T, C>(cfg: Config<T, C>, s: State<T, C>, queue: seq<Op<T>>)
    ensures var r := Loop(cfg, s, queue);
      (r.exit == QueueEmpty <==> NoStop(queue)) &&
      (r.exit != QueueEmpty ==>
        0 < r.consumed && NoStop(queue[..r.consumed - 1]) &&
        (r.exit == ShutdownDone <==> queue[r.consumed - 1].ShutdownMsg?) &&
        (r.exit == UnknownTag <==> queue[r.consumed - 1].UnknownMsg?))
    decreases |queue|
  {
    if queue != [] {
      var r := Loop(cfg, s, queue);
      LoopUnfold(cfg, s, queue);
      if !queue[0].Stops() {
        var rest := Loop(cfg, Step(cfg, s, queue[0]), queue[1..]);
        StopsAtFirstStop(cfg, Step(cfg, s, queue[0]), queue[1..]);
        assert forall i :: 0 < i < |queue| ==> queue[i] == queue[1..][i - 1];
        if rest.exit != QueueEmpty {
          assert queue[..r.consumed - 1] == [queue[0]] + queue[1..][..rest.consumed - 1];
        }
      } else {
        assert queue[..0] == [];
      }
    }
  }

  /** Concatenation of every batch handed to the block, in call order. */
  function Batches<T, C>(calls: seq<Call<T, C>>): seq<T> {
    if calls == [] then [] else Batches(calls[..|calls| - 1]) + calls[|calls| - 1].batch
  }

  /** Concatenation of the batches of the calls that returned normally, in call order. */
  function Delivered<T, C>(calls: seq<Call<T, C>>): seq<T> {
    if calls == [] then []
    else Delivered(calls[..|calls| - 1]) + (if calls[|calls| - 1].raised then [] else calls[|calls| - 1].batch)
  }

  /** The block never raises. */
  ghost predicate NeverRaises<T(!new)>(block: Block<T>) {
    forall k, b :: !block(k, b)
  }

  /** The Worker object: its settings are fixed at construction, `backlog` is the
      array `run` mutates in place, `calls` and `log` record what the block and the
      logger were given. */
  class Worker<T, C> {
    const maxBacklogSize: nat
    const context: C
    const block: Block<T>
    var backlog: seq<T>
    var calls: seq<Call<T, C>>
    var log: seq<Event<T>>

    /** The construction-time settings, as the specification functions take them. */
    function Cfg(): Config<T, C> {
      Config(maxBacklogSize, context, block)
    }

    function Current(): State<T, C>
      reads this
    {
      State(backlog, calls, log)
    }

    /** `initialize`: a new Worker has an empty backlog and has called nothing. */
    constructor (maxBacklogSize: nat, context: C, block: Block<T>)
      ensures this.maxBacklogSize == maxBacklogSize && this.context == context && this.block == block
      ensures backlog == [] && calls == [] && log == []
    {
      this.maxBacklogSize := maxBacklogSize;
      this.context := context;
      this.block := block;
      backlog := [];
      calls := [];
      log := [];
    }

    /** `process`: one invocation of the block with the current backlog. */
    method Process()
      modifies this
      ensures Current() == Flush(Cfg(), old(Current()))
    {
      var raised := block(|calls|, backlog);
      calls := calls + [Call(backlog, context, raised)];
      if raised {
        log := log + [FlushFailed(backlog)];
      } else {
        backlog := [];
      }
    }

    /** `run`: pop messages from the front of `queue` and dispatch on their tag
        until `:shutdown`, an unknown tag, or the end of the queue. */
    method Run(queue: seq<Op<T>>) returns (consumed: nat, exit: Exit)
      modifies this
      ensures Outcome(Current(), consumed, exit) == Loop(Cfg(), old(Current()), queue)
    {
      ghost var start := Current();
      consumed := 0;
      while consumed < |queue|
        invariant consumed <= |queue|
        invariant Loop(Cfg(), start, queue) == After(Loop(Cfg(), Current(), queue[consumed..]), consumed)
        decreases |queue| - consumed
      {
        var op := queue[consumed];
        ghost var before := Current();
        assert queue[consumed..][1..] == queue[consumed + 1..];
        consumed := consumed + 1;
        match op {
          case ItemMsg(x) =>
            backlog := backlog + [x];
            if ThresholdReached(maxBacklogSize, |backlog|) {
              Process();
            }
          case ProcessMsg =>
            Process();
          case ShutdownMsg =>
            Process();
            exit := ShutdownDone;
            return;
          case UnknownMsg(tag) =>
            log := log + [UnknownOperation(tag)];
            exit := UnknownTag;
            return;
        }
        assert Current() == Step(Cfg(), before, op);
      }
      exit := QueueEmpty;
    }
  }

  // ---------------------------------------------------------------------------
  // One message at a time
  // ---------------------------------------------------------------------------

  /** An item is appended to the end of the backlog; it causes a flush, of the
      backlog including it, exactly when the threshold is then reached, and
      otherwise changes nothing else. A size of 0 never flushes. */
  lemma ItemAppends<T, C>(cfg: Config<T, C>, s: State<T, C>, x: T)
    ensures var r := Step(cfg, s, ItemMsg(x));
      (|r.calls| == |s.calls| + 1 <==> cfg.maxBacklogSize > 0 && |s.backlog| + 1 >= cfg.maxBacklogSize) &&
      (|r.calls| == |s.calls| + 1 ==> r == Flush(cfg, s.(backlog := s.backlog + [x]))) &&
      (|r.calls| != |s.calls| + 1 ==> r == s.(backlog := s.backlog + [x]))
  {
  }

  /** A flush, whatever triggered it, calls the block exactly once, even with an
      empty backlog, keeping the earlier calls and passing the backlog and the
      Worker's context unchanged. If the block returns, the backlog is emptied and
      nothing is logged; if it raises, the backlog is kept and the error is logged. */
  lemma FlushOutcome<T, C>(cfg: Config<T, C>, s: State<T, C>)
    ensures var r := Flush(cfg, s);
      |r.calls| == |s.calls| + 1 && r.calls[..|s.calls|] == s.calls &&
      r.calls[|s.calls|].batch == s.backlog && r.calls[|s.calls|].context == cfg.context &&
      (r.calls[|s.calls|].raised <==> cfg.block(|s.calls|, s.backlog)) &&
      (!r.calls[|s.calls|].raised ==> r.backlog == [] && r.log == s.log) &&
      (r.calls[|s.calls|].raised ==> r.backlog == s.backlog && r.log == s.log + [FlushFailed(s.backlog)])
  {
  }

  /** `:process` and `:shutdown` each flush the backlog as it stands, and do nothing else. */
  lemma RequestFlushes<T, C>(cfg: Config<T, C>, s: State<T, C>, op: Op<T>)
    requires op.ProcessMsg? || op.ShutdownMsg?
    ensures Step(cfg, s, op) == Flush(cfg, s)
  {
  }

  // ---------------------------------------------------------------------------
  // Whole runs
  // ---------------------------------------------------------------------------

  /** Running over `a` and then over `b` is running over `a + b`, as long as
      nothing in `a` ends the loop: how the queue is split into pops does not matter. */
  lemma {:induction false} LoopAppend<T, C>(cfg: Config<T, C>, s: State<T, C>, a: seq<Op<T>>, b: seq<Op<T>>)
    requires NoStop(a)
    ensures Loop(cfg, s, a + b) == After(Loop(cfg, Loop(cfg, s, a).final, b), |a|)
    decreases |a|
  {
    if a == [] {
      assert a + b == b;
    } else {
      var ab := a + b;
      assert ab[0] == a[0] && ab[1..] == a[1..] + b;
      assert !a[0].Stops();
      assert NoStop(a[1..]) by {
        forall i | 0 <= i < |a[1..]| ensures !a[1..][i].Stops() {
          assert a[1..][i] == a[i + 1];
        }
      }
      LoopAppend(cfg, Step(cfg, s, a[0]), a[1..], b);
    }
  }

  /** `:shutdown` flushes exactly once and ends the run: the messages before it
      are handled as usual and nothing after it is popped. */
  lemma {:induction false} ShutdownIsLast<T, C>(cfg: Config<T, C>, s: State<T, C>, pre: seq<Op<T>>, post: seq<Op<T>>)
    requires NoStop(pre)
    ensures var before := Loop(cfg, s, pre).final;
      Loop(cfg, s, pre + [ShutdownMsg] + post) == Outcome(Flush(cfg, before), |pre| + 1, ShutdownDone)
  {
    var rest := [ShutdownMsg] + post;
    assert pre + [ShutdownMsg] + post == pre + rest;
    LoopAppend(cfg, s, pre, rest);
    LoopUnfold(cfg, Loop(cfg, s, pre).final, rest);
  }

  /** An unknown tag ends the run without a flush and logs "Unknown operation". */
  lemma {:induction false} UnknownEndsRun<T, C>(cfg: Config<T, C>, s: State<T, C>, pre: seq<Op<T>>, tag: string, post: seq<Op<T>>)
    requires NoStop(pre)
    ensures var before := Loop(cfg, s, pre).final;
      Loop(cfg, s, pre + [UnknownMsg(tag)] + post) ==
        Outcome(before.(log := before.log + [UnknownOperation(tag)]), |pre| + 1, UnknownTag)
  {
    var rest := [UnknownMsg(tag)] + post;
    assert pre + [UnknownMsg(tag)] + post == pre + rest;
    LoopAppend(cfg, s, pre, rest);
    LoopUnfold(cfg, Loop(cfg, s, pre).final, rest);
  }

  /** Calls are only ever added at the end: a run never rewrites earlier calls. */
  lemma {:induction false} CallsGrow<T, C>(cfg: Config<T, C>, s: State<T, C>, queue: seq<Op<T>>)
    ensures var r := Loop(cfg, s, queue).final;
      |s.calls| <= |r.calls| && r.calls[..|s.calls|] == s.calls
    decreases |queue|
  {
    if queue != [] && !queue[0].Stops() {
      CallsGrow(cfg, Step(cfg, s, queue[0]), queue[1..]);
    }
  }

  // ---------------------------------------------------------------------------
  // Nothing lost, nothing reordered
  // ---------------------------------------------------------------------------

  lemma DeliveredSnoc<T, C>(calls: seq<Call<T, C>>, c: Call<T, C>)
    ensures Delivered(calls + [c]) == Delivered(calls) + (if c.raised then [] else c.batch)
    ensures Batches(calls + [c]) == Batches(calls) + c.batch
  {
    assert (calls + [c])[..|calls|] == calls;
  }

  /** A flush loses no item, whether the block returns or raises. */
  lemma FlushConserves<T, C>(cfg: Config<T, C>, s: State<T, C>)
    ensures var r := Flush(cfg, s);
      Delivered(r.calls) + r.backlog == Delivered(s.calls) + s.backlog
  {
    var raised := cfg.block(|s.calls|, s.backlog);
    DeliveredSnoc(s.calls, Call(s.backlog, cfg.context, raised));
    if !raised {
      assert Delivered(s.calls) + s.backlog + [] == Delivered(s.calls) + s.backlog;
    }
  }

  /** One message conserves the items: what the block has accepted followed by
      the backlog grows exactly by the message's payload. */
  lemma StepConserves<T, C>(cfg: Config<T, C>, s: State<T, C>, op: Op<T>)
    ensures var r := Step(cfg, s, op);
      Delivered(r.calls) + r.backlog == Delivered(s.calls) + s.backlog + PayloadOf(op)
  {
    match op
    case ItemMsg(x) =>
      var appended := s.(backlog := s.backlog + [x]);
      assert Delivered(s.calls) + appended.backlog == Delivered(s.calls) + s.backlog + [x];
      if ThresholdReached(cfg.maxBacklogSize, |appended.backlog|) {
        FlushConserves(cfg, appended);
      }
    case ProcessMsg =>
      FlushConserves(cfg, s);
      assert Delivered(s.calls) + s.backlog + [] == Delivered(s.calls) + s.backlog;
    case ShutdownMsg =>
      FlushConserves(cfg, s);
      assert Delivered(s.calls) + s.backlog + [] == Delivered(s.calls) + s.backlog;
    case UnknownMsg(_) =>
      assert Delivered(s.calls) + s.backlog + [] == Delivered(s.calls) + s.backlog;
  }

  /** Every popped item is either accepted by the block or still in the backlog,
      exactly once and in queue order, whatever the block does: the items handed
      to successful calls, followed by the backlog, are the earlier ones followed
      by the payloads of the popped messages. */
  lemma {:induction false} NothingLost<T, C>(cfg: Config<T, C>, s: State<T, C>, queue: seq<Op<T>>)
    ensures var r := Loop(cfg, s, queue);
      Delivered(r.final.calls) + r.final.backlog == Delivered(s.calls) + s.backlog + Payloads(queue[..r.consumed])
    decreases |queue|
  {
    if queue == [] {
      assert queue[..0] == [];
    } else {
      var r := Loop(cfg, s, queue);
      var next := Step(cfg, s, queue[0]);
      LoopUnfold(cfg, s, queue);
      var tail := queue[1..][..r.consumed - 1];
      if !queue[0].Stops() {
        NothingLost(cfg, next, queue[1..]);
      } else {
        assert tail == [];
      }
      calc {
        Delivered(r.final.calls) + r.final.backlog;
        Delivered(next.calls) + next.backlog + Payloads(tail);
        { StepConserves(cfg, s, queue[0]); }
        Delivered(s.calls) + s.backlog + PayloadOf(queue[0]) + Payloads(tail);
        { PrefixUnfold(queue, r.consumed); }
        Delivered(s.calls) + s.backlog + Payloads(queue[..r.consumed]);
      }
    }
  }

  /** With automatic flushing off, the block is called exactly once per
      `:process` and `:shutdown` popped. */
  lemma {:induction false} OneCallPerRequest<T, C>(cfg: Config<T, C>, s: State<T, C>, queue: seq<Op<T>>)
    requires cfg.maxBacklogSize == 0
    ensures var r := Loop(cfg, s, queue);
      |r.final.calls| == |s.calls| + Controls(queue[..r.consumed])
    decreases |queue|
  {
    var r := Loop(cfg, s, queue);
    if queue == [] {
      assert queue[..r.consumed] == [];
    } else {
      PrefixUnfold(queue, r.consumed);
      if !queue[0].Stops() {
        OneCallPerRequest(cfg, Step(cfg, s, queue[0]), queue[1..]);
      } else {
        assert queue[1..][..r.consumed - 1] == [];
      }
    }
  }

  /** If the block never raises, no call of a run raises. */
  lemma {:induction false} NoNewFailures<T(!new), C>(cfg: Config<T, C>, s: State<T, C>, queue: seq<Op<T>>)
    requires NeverRaises(cfg.block)
    ensures var r := Loop(cfg, s, queue).final;
      |s.calls| <= |r.calls| && forall i :: |s.calls| <= i < |r.calls| ==> !r.calls[i].raised
    decreases |queue|
  {
    if queue != [] {
      LoopUnfold(cfg, s, queue);
      var next := Step(cfg, s, queue[0]);
      assert |s.calls| <= |next.calls| && forall i :: |s.calls| <= i < |next.calls| ==> !next.calls[i].raised;
      if !queue[0].Stops() {
        NoNewFailures(cfg, next, queue[1..]);
        CallsGrow(cfg, next, queue[1..]);
        var r := Loop(cfg, next, queue[1..]).final;
        forall i | |s.calls| <= i < |r.calls| ensures !r.calls[i].raised {
          if i < |next.calls| {
            assert r.calls[i] == r.calls[..|next.calls|][i];
          }
        }
      }
    }
  }

  /** With a block that never raises, `:shutdown` hands every item still pending
      to the block, in order, and leaves the backlog empty. */
  lemma ShutdownDeliversAll<T(!new), C>(cfg: Config<T, C>, s: State<T, C>, pre: seq<Op<T>>)
    requires NoStop(pre) && NeverRaises(cfg.block)
    ensures var r := Loop(cfg, s, pre + [ShutdownMsg]);
      r.consumed == |pre| + 1 && r.exit == ShutdownDone && r.final.backlog == [] &&
      Delivered(r.final.calls) == Delivered(s.calls) + s.backlog + Payloads(pre)
  {
    var before := Loop(cfg, s, pre);
    ShutdownIsLast(cfg, s, pre, []);
    assert pre + [ShutdownMsg] + [] == pre + [ShutdownMsg];
    assert !cfg.block(|before.final.calls|, before.final.backlog);
    StopsAtFirstStop(cfg, s, pre);
    NothingLost(cfg, s, pre);
    assert pre[..before.consumed] == pre;
    StepConserves(cfg, before.final, ShutdownMsg);
  }

  /** When no call failed, what was delivered is every batch the block was given. */
  lemma {:induction false} AllCallsSucceeded<T, C>(calls: seq<Call<T, C>>)
    requires forall i :: 0 <= i < |calls| ==> !calls[i].raised
    ensures Delivered(calls) == Batches(calls)
    decreases |calls|
  {
    if calls != [] {
      AllCallsSucceeded(calls[..|calls| - 1]);
    }
  }

  // ---------------------------------------------------------------------------
  // Failed flushes are retried
  // ---------------------------------------------------------------------------

  /** A failed call's batch is the start of the next call's batch, and while no
      call has followed a failure, the failed batch is the start of the backlog. */
  ghost predicate RetryChain<T, C>(calls: seq<Call<T, C>>, backlog: seq<T>) {
    (forall i :: 0 <= i < |calls| - 1 ==> calls[i].raised ==> calls[i].batch <= calls[i + 1].batch) &&
    (|calls| > 0 && calls[|calls| - 1].raised ==> calls[|calls| - 1].batch <= backlog)
  }

  lemma StepRetries<T, C>(cfg: Config<T, C>, s: State<T, C>, op: Op<T>)
    requires RetryChain(s.calls, s.backlog)
    ensures var r := Step(cfg, s, op); RetryChain(r.calls, r.backlog)
  {
    match op
    case ItemMsg(x) =>
      var appended := s.(backlog := s.backlog + [x]);
      if |s.calls| > 0 && s.calls[|s.calls| - 1].raised {
        assert s.calls[|s.calls| - 1].batch <= appended.backlog;
      }
    case _ =>
  }

  /** A failed flush loses nothing: the next call the block receives starts with
      the whole batch that failed, and the items stay in the backlog until then. */
  lemma {:induction false} FailedBatchRetried<T, C>(cfg: Config<T, C>, s: State<T, C>, queue: seq<Op<T>>)
    requires RetryChain(s.calls, s.backlog)
    ensures var r := Loop(cfg, s, queue).final; RetryChain(r.calls, r.backlog)
    decreases |queue|
  {
    StepRetries(cfg, s, if queue == [] then ProcessMsg else queue[0]);
    if queue != [] && !queue[0].Stops() {
      FailedBatchRetried(cfg, Step(cfg, s, queue[0]), queue[1..]);
    }
  }

  // ---------------------------------------------------------------------------
  // The size threshold
  // ---------------------------------------------------------------------------

  /** Items that keep the backlog below the threshold, or any items when the
      threshold is 0, are only appended: no call is made. */
  lemma {:induction false} BelowThreshold<T, C>(cfg: Config<T, C>, s: State<T, C>, xs: seq<T>)
    requires cfg.maxBacklogSize == 0 || |s.backlog| + |xs| < cfg.maxBacklogSize
    ensures Loop(cfg, s, ItemOps(xs)) == Outcome(s.(backlog := s.backlog + xs), |xs|, QueueEmpty)
    decreases |xs|
  {
    var q := ItemOps(xs);
    if xs == [] {
      assert s.backlog + xs == s.backlog;
    } else {
      var next := s.(backlog := s.backlog + [xs[0]]);
      assert q[0] == ItemMsg(xs[0]) && q[1..] == ItemOps(xs[1..]);
      assert Step(cfg, s, q[0]) == next;
      assert Loop(cfg, s, q) == After(Loop(cfg, next, ItemOps(xs[1..])), 1) by {
        LoopUnfold(cfg, s, q);
      }
      BelowThreshold(cfg, next, xs[1..]);
      assert next.backlog + xs[1..] == s.backlog + xs;
    }
  }

  /** Starting from an empty backlog with a threshold of N > 0, N items cause
      exactly one flush, of exactly those N items, when the N-th is appended,
      whether the block then returns or raises. */
  lemma ThresholdFlushesBatch<T, C>(cfg: Config<T, C>, s: State<T, C>, xs: seq<T>)
    requires cfg.maxBacklogSize > 0 && |xs| == cfg.maxBacklogSize && s.backlog == []
    ensures Loop(cfg, s, ItemOps(xs)) == Outcome(Flush(cfg, s.(backlog := xs)), |xs|, QueueEmpty)
  {
    var n := |xs| - 1;
    var init := ItemOps(xs[..n]);
    var last: seq<Op<T>> := [ItemMsg(xs[n])];
    assert xs == xs[..n] + [xs[n]];
    assert ItemOps(xs) == init + last;
    PayloadsOfItemOps(xs[..n]);
    BelowThreshold(cfg, s, xs[..n]);
    LoopAppend(cfg, s, init, last);
    var mid := s.(backlog := xs[..n]);
    assert Loop(cfg, s, init).final == mid;
    LoopUnfold(cfg, mid, last);
    assert last[1..] == [];
    assert Step(cfg, mid, ItemMsg(xs[n])) == Flush(cfg, mid.(backlog := xs));
  }
}

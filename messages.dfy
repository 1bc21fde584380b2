/** The protocol on the queue between the AsyncBatchProcessor facade (and the
    Timer) and the Worker: tagged pairs `[:item, x]`, `[:process, nil]`,
    `[:shutdown, nil]`, plus whatever other tag a caller might push. */
module Messages {

  /** One queued operation. `UnknownMsg` stands for any pair whose tag is none of
      the three the Worker recognises; its payload is irrelevant to the Worker. */
  datatype Op<T> = ItemMsg(payload: T) | ProcessMsg | ShutdownMsg | UnknownMsg(tag: string)
  {
    /** True of the operations after which the Worker's loop ends. */
    predicate Stops() {
      ShutdownMsg? || UnknownMsg?
    }
  }

  /** No operation of `ops` ends the Worker's loop. */
  predicate NoStop<T>(ops: seq<Op<T>>) {
    forall i :: 0 <= i < |ops| ==> !ops[i].Stops()
  }

  /** The payload an operation contributes to the backlog: one for an item, none otherwise. */
  function PayloadOf<T>(op: Op<T>): seq<T> {
    if op.ItemMsg? then [op.payload] else []
  }

  /** The payloads of the item operations of `ops`, in queue order. */
  function Payloads<T>(ops: seq<Op<T>>): seq<T> {
    if ops == [] then [] else PayloadOf(ops[0]) + Payloads(ops[1..])
  }

  /** The number of operations of `ops` that ask for a flush (`:process` and `:shutdown`). */
  function Controls<T>(ops: seq<Op<T>>): nat {
    if ops == [] then 0
    else (if ops[0].ProcessMsg? || ops[0].ShutdownMsg? then 1 else 0) + Controls(ops[1..])
  }

  /** The item operations the facade enqueues for `xs`, one per element, in order. */
  function ItemOps<T>(xs: seq<T>): seq<Op<T>> {
    seq(|xs|, i requires 0 <= i < |xs| => ItemMsg(xs[i]))
  }

  /** Enqueuing items and taking their payloads back gives the items, in order. */
  lemma {:induction false} PayloadsOfItemOps<T>(xs: seq<T>)
    ensures Payloads(ItemOps(xs)) == xs
    ensures NoStop(ItemOps(xs)) && Controls(ItemOps(xs)) == 0
  {
    if xs != [] {
      PayloadsOfItemOps(xs[1..]);
      assert ItemOps(xs)[1..] == ItemOps(xs[1..]);
    }
  }

  /** Payloads distribute over concatenation of queues. */
  lemma {:induction false} PayloadsAppend<T>(a: seq<Op<T>>, b: seq<Op<T>>)
    ensures Payloads(a + b) == Payloads(a) + Payloads(b)
  {
    if a == [] {
      assert a + b == b;
    } else {
      var ab := a + b;
      assert ab[0] == a[0] && ab[1..] == a[1..] + b;
      calc {
        Payloads(ab);
        PayloadOf(a[0]) + Payloads(a[1..] + b);
        { PayloadsAppend(a[1..], b); }
        PayloadOf(a[0]) + (Payloads(a[1..]) + Payloads(b));
      }
    }
  }

  /** Flush requests are counted additively over concatenation of queues. */
  lemma {:induction false} ControlsAppend<T>(a: seq<Op<T>>, b: seq<Op<T>>)
    ensures Controls(a + b) == Controls(a) + Controls(b)
  {
    if a == [] {
      assert a + b == b;
    } else {
      var ab := a + b;
      assert ab[0] == a[0] && ab[1..] == a[1..] + b;
      ControlsAppend(a[1..], b);
    }
  }

  /** Splitting off the first operation of a prefix. */
  lemma PrefixUnfold<T>(q: seq<Op<T>>, c: nat)
    requires 0 < c <= |q|
    ensures Payloads(q[..c]) == PayloadOf(q[0]) + Payloads(q[1..][..c - 1])
    ensures Controls(q[..c]) == Controls([q[0]]) + Controls(q[1..][..c - 1])
  {
    assert q[..c] == [q[0]] + q[1..][..c - 1];
    PayloadsAppend([q[0]], q[1..][..c - 1]);
    ControlsAppend([q[0]], q[1..][..c - 1]);
  }
}

/** The bounded queue between StartTransition and the workers (engine/queue.go). A Go channel operation that would block
    is the result `Blocked`: nothing happened and the caller is still waiting. */
module TaskQueue {
  datatype Sent = Accepted | Closed | CallerDone | Blocked

  datatype Received<T> = Item(value: T) | Drained | WorkerDone | Waiting

  /** What `enqueue` may answer, and what the queue holds then. */
  ghost predicate OfferAnswer<T>(items: seq<T>, closed: bool, capacity: int, item: T, callerDone: bool, r: Sent,
                                 after: seq<T>) {
    && (r.Closed? <==> closed)
    && (r.Accepted? ==> |items| < capacity && after == items + [item])
    && (!r.Accepted? ==> after == items)
    && (r.CallerDone? ==> callerDone)
    && (r.Blocked? <==> !closed && !callerDone && |items| == capacity)
  }

  /** What `dequeue` may answer, and what the queue holds then. */
  ghost predicate TakeAnswer<T>(items: seq<T>, closed: bool, workerDone: bool, r: Received<T>, after: seq<T>) {
    && (r.Item? ==> items == [r.value] + after)
    && (!r.Item? ==> after == items)
    && (r.Drained? ==> closed && items == [])
    && (r.WorkerDone? ==> workerDone)
    && (r.Waiting? <==> !closed && !workerDone && items == [])
  }

  class Queue<T> {
    var items: seq<T>
    var closed: bool
    const capacity: int
    /** Everything accepted and everything handed out so far, in order. */
    ghost var sent: seq<T>
    ghost var received: seq<T>

    ghost predicate Valid()
      reads this
    {
      0 < capacity && |items| <= capacity && sent == received + items
    }

    /** `newQueue`. */
    constructor (requested: int)
      ensures Valid() && items == [] && sent == [] && !closed
      ensures capacity == if requested > 0 then requested else 1
    {
      capacity := if requested <= 0 then 1 else requested;
      items, closed, sent, received := [], false, [], [];
    }

    /** `enqueue`. When the caller's context is done and there is room, `select` may take either case. */
    method Enqueue(item: T, callerDone: bool, takeDone: bool) returns (r: Sent)
      requires Valid()
      modifies this
      ensures Valid() && closed == old(closed) && received == old(received)
      ensures OfferAnswer(old(items), closed, capacity, item, callerDone, r, items)
      ensures sent == if r.Accepted? then old(sent) + [item] else old(sent)
    {
      if closed {
        return Closed;
      }
      if |items| < capacity && !(callerDone && takeDone) {
        items := items + [item];
        sent := sent + [item];
        return Accepted;
      }
      return if callerDone then CallerDone else Blocked;
    }

    /** `dequeue`. A closed queue still hands out what it holds; when the worker's context is done as well, `select` may
        leave the items where they are. */
    method Dequeue(workerDone: bool, takeDone: bool) returns (r: Received<T>)
      requires Valid()
      modifies this
      ensures Valid() && closed == old(closed) && sent == old(sent)
      ensures TakeAnswer(old(items), closed, workerDone, r, items)
      ensures received == if r.Item? then old(received) + [r.value] else old(received)
    {
      if workerDone && (takeDone || (items == [] && !closed)) {
        return WorkerDone;
      }
      if items != [] {
        var head := items[0];
        assert received + items == (received + [head]) + items[1..];
        items := items[1..];
        received := received + [head];
        return Item(head);
      }
      return if closed then Drained else Waiting;
    }

    /** `close`; closing again does nothing. */
    method Close()
      requires Valid()
      modifies this
      ensures Valid() && closed && items == old(items) && sent == old(sent) && received == old(received)
    {
      if closed {
        return;
      }
      closed := true;
    }
  }
}

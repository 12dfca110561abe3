/** The in-memory job queue: a FIFO list with explicit settlement of each delivery. */
module MemoryQueue {

  /** A published message; two messages for one job differ in their serial number. */
  datatype Message = Message(serial: nat, jobId: string)

  ghost predicate NoDuplicates(items: seq<Message>) {
    forall i, j | 0 <= i < j < |items| :: items[i] != items[j]
  }

  ghost function Elements(items: seq<Message>): set<Message> {
    set m | m in items
  }

  class InMemoryJobQueue {
    var items: seq<Message>
    ghost var claimed: set<Message>
    ghost var acked: set<Message>
    ghost var published: set<Message>
    var serials: nat

    /** Every published message is in exactly one place: pending once, claimed, or acknowledged. */
    ghost predicate Valid()
      reads this
    {
      && NoDuplicates(items)
      && published == Elements(items) + claimed + acked
      && Elements(items) !! claimed && Elements(items) !! acked && claimed !! acked
      && forall m | m in published :: m.serial < serials
    }

    constructor ()
      ensures Valid() && items == [] && published == {} && claimed == {} && acked == {}
    {
      items, claimed, acked, published, serials := [], {}, {}, {}, 0;
    }

    method Publish(jobId: string)
      requires Valid()
      modifies this
      ensures Valid() && claimed == old(claimed) && acked == old(acked)
      ensures |items| == |old(items)| + 1 && items[..|old(items)|] == old(items) && items[|old(items)|].jobId == jobId
      ensures published == old(published) + {items[|old(items)|]} && items[|old(items)|] !in old(published)
    {
      var serial := serials;
      items := items + [Message(serial, jobId)];
      assert Elements(items) == old(Elements(items)) + {Message(serial, jobId)};
      serials := serials + 1;
      published := published + {Message(serial, jobId)};
    }

    method Receive() returns (delivery: MemoryQueueDelivery?)
      requires Valid()
      modifies `items, `claimed
      ensures Valid()
      ensures delivery == null <==> old(items) == []
      ensures delivery == null ==> items == old(items) && claimed == old(claimed)
      ensures delivery != null ==>
                && fresh(delivery) && !delivery.done && delivery.queue == this
                && [delivery.message] + items == old(items)
                && delivery.message !in old(claimed)
                && claimed == old(claimed) + {delivery.message}
    {
      if items == [] {
        return null;
      }
      var message := items[0];
      assert items == [message] + items[1..];
      assert Elements(items) == {message} + Elements(items[1..]);
      items := items[1..];
      claimed := claimed + {message};
      delivery := new MemoryQueueDelivery(this, message);
    }
  }

  class MemoryQueueDelivery {
    const queue: InMemoryJobQueue
    const message: Message
    var done: bool

    constructor (queue: InMemoryJobQueue, message: Message)
      ensures this.queue == queue && this.message == message && !done
    {
      this.queue, this.message, done := queue, message, false;
    }

    /** An open delivery holds its message. */
    ghost predicate Valid()
      reads this, queue
    {
      queue.Valid() && (!done ==> message in queue.claimed)
    }

    method Ack()
      requires Valid()
      modifies this, queue`claimed, queue`acked
      ensures Valid() && done
      ensures old(done) ==> queue.claimed == old(queue.claimed) && queue.acked == old(queue.acked)
      ensures !old(done) ==>
                  queue.claimed == old(queue.claimed) - {message} && queue.acked == old(queue.acked) + {message}
    {
      if !done {
        queue.claimed := queue.claimed - {message};
        queue.acked := queue.acked + {message};
      }
      done := true;
    }

    method Nack()
      requires Valid()
      modifies this, queue`claimed, queue`items
      ensures Valid() && done
      ensures old(done) ==> queue.claimed == old(queue.claimed) && queue.items == old(queue.items)
      ensures !old(done) ==>
                  queue.claimed == old(queue.claimed) - {message} && queue.items == [message] + old(queue.items)
    {
      if done {
        return;
      }
      ghost var before := queue.items;
      queue.items := [message] + queue.items;
      assert Elements(queue.items) == {message} + Elements(before);
      queue.claimed := queue.claimed - {message};
      done := true;
    }
  }
}

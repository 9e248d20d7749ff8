/** The critical sections of queue.c on a queue: its storage, its two lists of
    waiting tasks and its two lock counts.

    Each is proved to be what QueueProtocol takes it for: the storage as a
    sequence of items, and each side by the functions of QueueSides. */
module Queues {
  import opened Identifiers
  import opened QueueBuffers
  import opened QueueSides

  class Queue {
    const buffer: QueueBuffer
    var waitingToReceive: seq<Tid>   // xTasksWaitingToReceive
    var waitingToSend: seq<Tid>      // xTasksWaitingToSend
    var txLock: int                  // cTxLock
    var rxLock: int                  // cRxLock

    ghost var wokenReceivers: set<Tid>
    ghost var wokenSenders: set<Tid>
    ghost var posts: nat             // since the queue was locked
    ghost var takes: nat

    ghost function Receivers(): Side
      reads this
    {
      Side(waitingToReceive, wokenReceivers, txLock, posts)
    }

    ghost function Senders(): Side
      reads this
    {
      Side(waitingToSend, wokenSenders, rxLock, takes)
    }

    ghost predicate Valid()
      reads this, buffer, buffer.storage
    {
      buffer.Valid()
    }

    // xQueueGenericCreate
    constructor (length: nat, itemSize: nat)
      requires length > 0
      ensures Valid() && fresh(buffer) && fresh(buffer.storage) && buffer.items == []
      ensures buffer.length == length && buffer.itemSize == itemSize
      ensures Receivers() == Side([], {}, UNLOCKED, 0) && Senders() == Side([], {}, UNLOCKED, 0)
    {
      buffer := new QueueBuffer(length, itemSize);
      waitingToReceive, waitingToSend, txLock, rxLock := [], [], UNLOCKED, UNLOCKED;
      wokenReceivers, wokenSenders, posts, takes := {}, {}, 0, 0;
    }

    // Unblock the highest-priority task that waits to receive, or to send, if any.
    method WakeReceiver()
      modifies `waitingToReceive, `wokenReceivers
      ensures Receivers() == WakeHead(old(Receivers()))
    {
      if waitingToReceive != [] {
        wokenReceivers := wokenReceivers + {waitingToReceive[0]};
        waitingToReceive := waitingToReceive[1..];
      }
    }

    method WakeSender()
      modifies `waitingToSend, `wokenSenders
      ensures Senders() == WakeHead(old(Senders()))
    {
      if waitingToSend != [] {
        wokenSenders := wokenSenders + {waitingToSend[0]};
        waitingToSend := waitingToSend[1..];
      }
    }

    // The critical section of xQueueGenericSend, run by task t
    method TrySend(ghost t: Tid, item: Item, position: Position) returns (sent: bool)
      requires Valid() && |item| == buffer.itemSize
      requires position.Overwrite? ==> buffer.length == 1
      modifies this, buffer, buffer.storage
      ensures Valid() && (sent <==> old(buffer.messagesWaiting) < buffer.length || position.Overwrite?)
      ensures buffer.items
              == if sent then Sent(old(buffer.items), item, position, buffer.itemSize) else old(buffer.items)
      ensures Senders() == Rerun(old(Senders()), t)
      ensures Receivers() == if sent then WakeHead(Rerun(old(Receivers()), t)) else Rerun(old(Receivers()), t)
    {
      wokenReceivers, wokenSenders := wokenReceivers - {t}, wokenSenders - {t};
      sent := buffer.messagesWaiting < buffer.length || position.Overwrite?;
      if sent {
        buffer.CopyDataToQueue(item, position);
        WakeReceiver();
      }
    }

    // The critical section of xQueueReceive
    method TryReceive(ghost t: Tid) returns (received: bool, item: Item)
      requires Valid()
      modifies this, buffer
      ensures Valid() && (received <==> old(buffer.items) != [])
      ensures received ==> item == old(buffer.items)[0] && buffer.items == old(buffer.items)[1..]
      ensures !received ==> buffer.items == []
      ensures Receivers() == Rerun(old(Receivers()), t)
      ensures Senders() == if received then WakeHead(Rerun(old(Senders()), t)) else Rerun(old(Senders()), t)
    {
      wokenReceivers, wokenSenders := wokenReceivers - {t}, wokenSenders - {t};
      received := buffer.messagesWaiting > 0;
      item := [];
      if received {
        item := buffer.Receive();
        WakeSender();
      }
    }

    // The critical section of xQueuePeek: the item stays, so another task that
    // waits for it is woken in turn.
    method TryPeek(ghost t: Tid) returns (peeked: bool, item: Item)
      requires Valid()
      modifies this, buffer
      ensures Valid() && (peeked <==> old(buffer.items) != []) && buffer.items == old(buffer.items)
      ensures peeked ==> item == old(buffer.items)[0]
      ensures Receivers() == if peeked then WakeHead(Rerun(old(Receivers()), t)) else Rerun(old(Receivers()), t)
      ensures Senders() == Rerun(old(Senders()), t)
    {
      wokenReceivers, wokenSenders := wokenReceivers - {t}, wokenSenders - {t};
      peeked := buffer.messagesWaiting > 0;
      item := [];
      if peeked {
        item := buffer.Peek();
        WakeReceiver();
      }
    }

    // xQueueGenericSendFromISR
    method SendFromISR(item: Item, position: Position, numberOfTasks: nat) returns (sent: bool)
      requires Valid() && |item| == buffer.itemSize && txLock >= UNLOCKED
      requires position.Overwrite? ==> buffer.length == 1
      modifies this, buffer, buffer.storage
      ensures Valid() && (sent <==> old(buffer.messagesWaiting) < buffer.length || position.Overwrite?)
      ensures buffer.items
              == if sent then Sent(old(buffer.items), item, position, buffer.itemSize) else old(buffer.items)
      ensures Receivers() == if sent then Event(old(Receivers()), numberOfTasks) else old(Receivers())
      ensures Senders() == old(Senders())
    {
      sent := buffer.messagesWaiting < buffer.length || position.Overwrite?;
      if sent {
        buffer.CopyDataToQueue(item, position);
        if txLock == UNLOCKED {
          WakeReceiver();
        } else {
          if txLock < numberOfTasks {
            txLock := txLock + 1;
          }
          posts := posts + 1;
        }
      }
    }

    // xQueueReceiveFromISR
    method ReceiveFromISR(numberOfTasks: nat) returns (received: bool, item: Item)
      requires Valid() && rxLock >= UNLOCKED
      modifies this, buffer
      ensures Valid() && (received <==> old(buffer.items) != [])
      ensures received ==> item == old(buffer.items)[0] && buffer.items == old(buffer.items)[1..]
      ensures !received ==> buffer.items == []
      ensures Senders() == if received then Event(old(Senders()), numberOfTasks) else old(Senders())
      ensures Receivers() == old(Receivers())
    {
      received := buffer.messagesWaiting > 0;
      item := [];
      if received {
        item := buffer.Receive();
        if rxLock == UNLOCKED {
          WakeSender();
        } else {
          if rxLock < numberOfTasks {
            rxLock := rxLock + 1;
          }
          takes := takes + 1;
        }
      }
    }

    // xQueueGenericReset of a queue in use: it empties it and wakes one sender.
    method Reset()
      requires Valid()
      modifies this, buffer
      ensures Valid() && buffer.items == []
      ensures Receivers() == old(Receivers()).(lock := UNLOCKED)
      ensures Senders() == WakeHead(old(Senders()).(lock := UNLOCKED))
    {
      buffer.Reset();
      rxLock := UNLOCKED;
      txLock := UNLOCKED;
      WakeSender();
    }

    // prvLockQueue
    method LockQueue()
      modifies `txLock, `rxLock, `posts, `takes
      ensures Receivers() == Lock(old(Receivers())) && Senders() == Lock(old(Senders()))
    {
      if rxLock == UNLOCKED {
        rxLock := 0;
        takes := 0;
      }
      if txLock == UNLOCKED {
        txLock := 0;
        posts := 0;
      }
    }

    // The first critical section of prvUnlockQueue: wake a receiver for each item
    // posted while the queue was locked, as long as there are any.
    method UnlockTx()
      modifies `txLock, `waitingToReceive, `wokenReceivers
      ensures Receivers() == Unlock(old(Receivers()))
    {
      hide WakeHead;
      var count := txLock;
      ghost var target := WakeMany(Receivers(), if txLock > 0 then txLock else 0);
      while count > 0
        invariant WakeMany(Receivers(), if count > 0 then count else 0) == target
        invariant txLock == old(txLock) && count <= txLock && (txLock > 0 ==> count >= 0)
      {
        if waitingToReceive == [] {
          break;
        }
        WakeReceiver();
        count := count - 1;
      }
      txLock := UNLOCKED;
    }

    // ... and the second, for the senders
    method UnlockRx()
      modifies `rxLock, `waitingToSend, `wokenSenders
      ensures Senders() == Unlock(old(Senders()))
    {
      hide WakeHead;
      var count := rxLock;
      ghost var target := WakeMany(Senders(), if rxLock > 0 then rxLock else 0);
      while count > 0
        invariant WakeMany(Senders(), if count > 0 then count else 0) == target
        invariant rxLock == old(rxLock) && count <= rxLock && (rxLock > 0 ==> count >= 0)
      {
        if waitingToSend == [] {
          break;
        }
        WakeSender();
        count := count - 1;
      }
      rxLock := UNLOCKED;
    }
  }
}

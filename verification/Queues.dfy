/**
  queue.c: a ring of fixed-size items in a byte array, with two wait lists and two lock
  counts. Each critical section of the source is a method, proved to do to the storage
  what module ItemRings says and to the wait lists what module QueueWakeups says.
*/
module Queues {
  import opened Bytes
  import IR = ItemRings
  import QW = QueueWakeups

  datatype Position = ToBack | ToFront | Over

  // ---- Slots of a byte array ----

  lemma SlotFits(k: nat, n: nat, size: nat)
    requires k < n
    ensures k * size + size <= n * size
    ensures k * size + size == (k + 1) * size
  {
    var rest := n - k - 1;
    assert n * size == k * size + size + rest * size;
  }

  function Slot(bytes: seq<byte>, size: nat, k: nat): seq<byte> {
    if k * size + size <= |bytes| then bytes[k * size..k * size + size] else []
  }

  function Slots(bytes: seq<byte>, size: nat, n: nat): (r: seq<seq<byte>>)
    ensures |r| == n
    ensures forall k :: 0 <= k < n ==> r[k] == Slot(bytes, size, k)
  {
    seq(n, k requires 0 <= k < n => Slot(bytes, size, k))
  }

  lemma SlotUnchanged(was: seq<byte>, now: seq<byte>, size: nat, n: nat, k: nat, j: nat)
    requires j < n && k < n && j != k
    requires |was| == |now| == n * size
    requires forall i :: 0 <= i < |was| && !(k * size <= i < k * size + size) ==> now[i] == was[i]
    ensures Slot(now, size, j) == Slot(was, size, j)
  {
    SlotsApart(j, k, n, size);
    SamePart(was, now, j * size, k * size, size);
  }

  lemma SlotsApart(j: nat, k: nat, n: nat, size: nat)
    requires j < n && k < n && j != k
    ensures j * size + size <= n * size && k * size + size <= n * size
    ensures j * size + size <= k * size || k * size + size <= j * size
  {
    SlotFits(j, n, size);
    SlotFits(k, n, size);
    if j < k {
      SlotFits(j, k, size);
    } else {
      SlotFits(k, j, size);
    }
  }

  lemma SamePart(was: seq<byte>, now: seq<byte>, a: nat, b: nat, size: nat)
    requires |was| == |now| && a + size <= |was| && (a + size <= b || b + size <= a)
    requires forall i :: 0 <= i < |was| && !(b <= i < b + size) ==> now[i] == was[i]
    ensures now[a..a + size] == was[a..a + size]
  {
  }

  /** Writing an item over its slot changes that slot and no other. */
  lemma WriteSlot(was: seq<byte>, now: seq<byte>, size: nat, n: nat, k: nat, item: seq<byte>)
    requires k < n && |was| == |now| == n * size && |item| == size
    requires forall i :: 0 <= i < |was| && !(k * size <= i < k * size + size) ==> now[i] == was[i]
    requires forall i :: 0 <= i < size && k * size + i < |now| ==> now[k * size + i] == item[i]
    ensures Slots(now, size, n) == Slots(was, size, n)[k := item]
  {
    SlotFits(k, n, size);
    assert Slot(now, size, k) == item;
    forall j | 0 <= j < n && j != k ensures Slot(now, size, j) == Slot(was, size, j) {
      SlotUnchanged(was, now, size, n, k, j);
    }
  }

  lemma SameSlot(j: nat, k: nat, size: nat)
    requires 0 < size
    ensures j * size < k * size <==> j < k
    ensures j * size >= k * size <==> j >= k
  {
    if j < k {
      SlotFits(j, k, size);
    } else if k < j {
      SlotFits(k, j, size);
    }
  }

  class Queue {
    const storage: array<byte>
    const length: nat
    const itemSize: nat
    var writeTo: int                      // pcWriteTo - pcHead
    var readFrom: int                     // pcReadFrom - pcHead
    var messages: nat
    var waitingToSend: seq<QW.Task>
    var waitingToReceive: seq<QW.Task>
    var rxLock: int
    var txLock: int
    ghost var read: nat                   // the slots the two pointers point at
    ghost var write: nat
    ghost var wokenSenders: set<QW.Task>
    ghost var wokenReceivers: set<QW.Task>

    ghost function Ring(): IR.ItemRing<seq<byte>>
      reads `read, `write, `messages, storage
    {
      IR.ItemRing(Slots(storage[..], itemSize, length), read, write, messages)
    }

    ghost predicate Aligned()
      reads `readFrom, `writeTo, `read, `write
    {
      && 0 < itemSize && 0 < length && storage.Length == length * itemSize
      && read < length && write < length
      && readFrom == read * itemSize && writeTo == write * itemSize
    }

    ghost predicate Valid()
      reads `readFrom, `writeTo, `read, `write, `messages, storage
    {
      Aligned() && IR.Valid(Ring())
    }

    ghost function Contents(): seq<seq<byte>>
      reads `readFrom, `writeTo, `read, `write, `messages, storage
      requires Valid()
    {
      IR.Contents(Ring())
    }

    /** The two halves of the queue as the protocol sees them. */
    ghost function Receivers(): QW.Half
      reads `messages, `waitingToReceive, `wokenReceivers, `txLock
    {
      QW.Half(messages, waitingToReceive, wokenReceivers, txLock)
    }

    ghost function Senders(): QW.Half
      reads `messages, `waitingToSend, `wokenSenders, `rxLock
      requires messages <= length
    {
      QW.Half(length - messages, waitingToSend, wokenSenders, rxLock)
    }

    ghost function View(all: set<QW.Task>): QW.World
      reads this
      requires messages <= length
    {
      QW.World(length, Receivers(), Senders(), all, QW.Free)
    }

    constructor (n: nat, size: nat)
      requires 0 < n && 0 < size
      ensures Valid() && fresh(storage) && length == n && itemSize == size
      ensures Contents() == []
      ensures forall all: set<QW.Task> :: QW.Initial(View(all))
    {
      length, itemSize := n, size;
      storage := new byte[n * size];
      writeTo, readFrom, messages := 0, (n - 1) * size, 0;
      waitingToSend, waitingToReceive := [], [];
      rxLock, txLock := -1, -1;
      read, write := n - 1, 0;
      wokenSenders, wokenReceivers := {}, {};
      new;
      assert IR.Valid(Ring());
    }

    // ---- The event lists ----

    /** xTaskRemoveFromEventList on the receivers. */
    method WakeReceiver()
      requires waitingToReceive != []
      modifies `waitingToReceive, `wokenReceivers
      ensures waitingToReceive == old(waitingToReceive[1..])
      ensures wokenReceivers == old(wokenReceivers) + {old(waitingToReceive[0])}
    {
      wokenReceivers := wokenReceivers + {waitingToReceive[0]};
      waitingToReceive := waitingToReceive[1..];
    }

    /** xTaskRemoveFromEventList on the senders. */
    method WakeSender()
      requires waitingToSend != []
      modifies `waitingToSend, `wokenSenders
      ensures waitingToSend == old(waitingToSend[1..])
      ensures wokenSenders == old(wokenSenders) + {old(waitingToSend[0])}
    {
      wokenSenders := wokenSenders + {waitingToSend[0]};
      waitingToSend := waitingToSend[1..];
    }

    /** A post on the receivers' half from an interrupt: wake one, or count it while locked. */
    method PostReceivers(tasks: nat)
      modifies `waitingToReceive, `wokenReceivers, `txLock
      ensures Receivers() == QW.Post(old(Receivers()), false, tasks)
    {
      if txLock == -1 {
        if waitingToReceive != [] {
          WakeReceiver();
        }
      } else if txLock < tasks {
        txLock := txLock + 1;
      }
    }

    /** And on the senders' half. */
    method PostSenders(tasks: nat)
      requires messages <= length
      modifies `waitingToSend, `wokenSenders, `rxLock
      ensures Senders() == QW.Post(old(Senders()), false, tasks)
    {
      if rxLock == -1 {
        if waitingToSend != [] {
          WakeSender();
        }
      } else if rxLock < tasks {
        rxLock := rxLock + 1;
      }
    }

    // ---- The storage ----

    /** memcpy of one item to a place in the storage, where slot k starts. */
    method WriteItem(at: int, item: seq<byte>, ghost k: nat)
      requires Aligned() && k < length && at == k * itemSize && |item| == itemSize
      modifies storage
      ensures Slots(storage[..], itemSize, length) == old(Slots(storage[..], itemSize, length))[k := item]
    {
      hide Slots, Slot;
      ghost var was := storage[..];
      SlotFits(k, length, itemSize);
      forall i | 0 <= i < itemSize {
        storage[at + i] := item[i];
      }
      WriteSlot(was, storage[..], itemSize, length, k, item);
    }

    /** The write pointer one item on, back to the head at the tail. */
    method AdvanceWrite()
      requires Aligned()
      modifies `writeTo, `write
      ensures Aligned() && write == IR.Forth(old(write), length)
    {
      SlotFits(write, length, itemSize);
      SameSlot(write + 1, length, itemSize);
      writeTo := writeTo + itemSize;
      write := write + 1;
      if writeTo >= storage.Length {
        writeTo := 0;
        write := 0;
      }
    }

    /** The read pointer one item back, to the last item from the head. */
    method RetreatRead()
      requires Aligned()
      modifies `readFrom, `read
      ensures Aligned() && read == IR.Back(old(read), length)
    {
      SameSlot(read, 1, itemSize);
      SlotFits(length - 1, length, itemSize);
      readFrom := readFrom - itemSize;
      if readFrom < 0 {
        readFrom := storage.Length - itemSize;
        read := length - 1;
      } else {
        SlotFits(read - 1, length, itemSize);
        read := read - 1;
      }
    }

    method AdvanceRead()
      requires Aligned()
      modifies `readFrom, `read
      ensures Aligned() && read == IR.Forth(old(read), length)
    {
      SlotFits(read, length, itemSize);
      SameSlot(read + 1, length, itemSize);
      readFrom := readFrom + itemSize;
      read := read + 1;
      if readFrom >= storage.Length {
        readFrom := 0;
        read := 0;
      }
    }

    /** prvCopyDataToQueue, for a queue with items. */
    method CopyTo(item: seq<byte>, position: Position)
      requires Aligned() && |item| == itemSize
      modifies storage, `writeTo, `readFrom, `messages, `read, `write
      ensures Aligned()
      ensures Ring() == match position
                        case ToBack => IR.PutBack(old(Ring()), item)
                        case ToFront => IR.PutFront(old(Ring()), item)
                        case Over => IR.Overwrite(old(Ring()), item)
    {
      var count := messages;
      if position == ToBack {
        WriteItem(writeTo, item, write);
        AdvanceWrite();
      } else {
        WriteItem(readFrom, item, read);
        RetreatRead();
        if position == Over && count > 0 {
          count := count - 1;
        }
      }
      messages := count + 1;
    }

    /** prvCopyDataFromQueue, for a queue with items. */
    method CopyFrom() returns (item: seq<byte>)
      requires Aligned()
      modifies `readFrom, `read
      ensures Aligned() && read == IR.Forth(old(read), length)
      ensures item == IR.Look(old(Ring()))
    {
      AdvanceRead();
      SlotFits(read, length, itemSize);
      item := storage[readFrom..readFrom + itemSize];
      assert item == Slot(storage[..], itemSize, read);
    }

    // ---- Calls from tasks ----

    ghost function SendOp(item: seq<byte>, position: Position): IR.Op<seq<byte>> {
      match position
      case ToBack => IR.SendBack(item)
      case ToFront => IR.SendFront(item)
      case Over => IR.SendOver(item)
    }

    /** The item goes into the ring, which has room for it or is overwritten. */
    method Store(item: seq<byte>, position: Position)
      requires Valid() && |item| == itemSize && (position == Over ==> length == 1)
      requires messages < length || position == Over
      modifies storage, `writeTo, `readFrom, `messages, `read, `write
      ensures Valid() && (Ring(), IR.Done) == IR.Do(old(Ring()), SendOp(item, position))
      ensures messages == if old(messages) < length then old(messages) + 1 else old(messages)
    {
      hide IR.OnSeq, IR.Contents, Slots;
      ghost var ring := Ring();
      CopyTo(item, position);
      IR.DoRefines(ring, SendOp(item, position));
    }

    /** The first item comes out of the ring. */
    method Fetch() returns (item: seq<byte>)
      requires Valid() && messages > 0
      modifies `readFrom, `messages, `read
      ensures Valid() && (Ring(), IR.Item(item)) == IR.Do(old(Ring()), IR.Receive)
      ensures messages == old(messages) - 1
    {
      hide IR.OnSeq, IR.Contents, Slots;
      IR.DoRefines(Ring(), IR.Receive);
      item := CopyFrom();
      messages := messages - 1;
    }

    lemma NoRoom(item: seq<byte>, position: Position)
      requires Valid() && messages >= length && position != Over
      ensures (Ring(), IR.Refused) == IR.Do(Ring(), SendOp(item, position))
    {
      hide Slots;
    }

    lemma NoItem()
      requires Valid() && messages == 0
      ensures (Ring(), IR.Refused) == IR.Do(Ring(), IR.Receive)
    {
      hide Slots;
    }

    lemma MessagesFit()
      requires Valid()
      ensures messages <= length
    {
      hide Slots;
    }

    /** xQueueGenericSend, up to the point where the caller would have to wait. */
    method Send(item: seq<byte>, position: Position, ghost all: set<QW.Task>) returns (ok: bool)
      requires Valid() && |item| == itemSize && (position == Over ==> length == 1)
      modifies this, storage
      ensures Valid()
      ensures (Ring(), if ok then IR.Done else IR.Refused) == IR.Do(old(Ring()), SendOp(item, position))
      ensures old(txLock) == -1 ==> View(all) == QW.Send(old(View(all)), position == Over)
      ensures Receivers() == if ok then QW.Wake(old(Receivers()).(stock := messages)) else old(Receivers())
      ensures messages <= length && Senders() == old(Senders()).(stock := length - messages)
    {
      hide Valid, Ring, IR.Do;
      MessagesFit();
      if messages < length || position == Over {
        Store(item, position);
        MessagesFit();
        if waitingToReceive != [] {
          WakeReceiver();
        }
        ok := true;
      } else {
        NoRoom(item, position);
        ok := false;
      }
    }

    /** xQueueReceive, up to the point where the caller would have to wait. */
    method Receive(ghost all: set<QW.Task>) returns (ok: bool, item: seq<byte>)
      requires Valid()
      modifies this
      ensures Valid()
      ensures (Ring(), if ok then IR.Item(item) else IR.Refused) == IR.Do(old(Ring()), IR.Receive)
      ensures old(rxLock) == -1 ==> View(all) == QW.Receive(old(View(all)))
      ensures messages <= length && Receivers() == old(Receivers()).(stock := messages)
      ensures Senders() == if ok then QW.Wake(old(Senders()).(stock := length - messages)) else old(Senders())
    {
      hide Valid, Ring, IR.Do;
      MessagesFit();
      ok, item := false, [];
      if messages > 0 {
        item := Fetch();
        MessagesFit();
        if waitingToSend != [] {
          WakeSender();
        }
        ok := true;
      } else {
        NoItem();
      }
    }

    /** xQueuePeek: the read position is put back, and the next receiver woken. */
    method Peek(ghost all: set<QW.Task>) returns (ok: bool, item: seq<byte>)
      requires Valid()
      modifies this
      ensures Valid()
      ensures (Ring(), if ok then IR.Item(item) else IR.Refused) == IR.Do(old(Ring()), IR.Peek)
      ensures ok ==> View(all).receivers == QW.Wake(old(View(all)).receivers)
      ensures !ok ==> View(all) == old(View(all))
      ensures View(all).senders == old(View(all)).senders
    {
      ok, item := false, [];
      if messages > 0 {
        var was := readFrom;
        ghost var slot := read;
        item := CopyFrom();
        readFrom := was;
        read := slot;
        if waitingToReceive != [] {
          WakeReceiver();
        }
        ok := true;
      }
    }

    /** The pointers of an empty ring, whatever is left in the storage. */
    method ResetRing()
      requires Valid()
      modifies `writeTo, `readFrom, `messages, `read, `write
      ensures Valid() && (Ring(), IR.Done) == IR.Do(old(Ring()), IR.Clear) && messages == 0
    {
      hide IR.OnSeq, IR.Contents, Slots;
      IR.DoRefines(Ring(), IR.Clear);
      SlotFits(length - 1, length, itemSize);
      messages := 0;
      writeTo := 0;
      readFrom := (length - 1) * itemSize;
      write := 0;
      read := length - 1;
    }

    /** xQueueGenericReset of a queue in use. */
    method Reset(ghost all: set<QW.Task>)
      requires Valid()
      modifies this
      ensures Valid()
      ensures (Ring(), IR.Done) == IR.Do(old(Ring()), IR.Clear)
      ensures View(all) == QW.Next(old(View(all)), QW.Reset)
    {
      hide Valid, Ring, IR.Do, QW.Send, QW.Receive, QW.Unlock;
      MessagesFit();
      ResetRing();
      rxLock := -1;
      txLock := -1;
      if waitingToSend != [] {
        WakeSender();
      }
    }

    // ---- Calls from interrupts ----

    /** xQueueGenericSendFromISR */
    method SendFromIsr(item: seq<byte>, position: Position, tasks: nat, ghost all: set<QW.Task>) returns (ok: bool)
      requires Valid() && |item| == itemSize && (position == Over ==> length == 1) && tasks == |all|
      modifies this, storage
      ensures Valid()
      ensures (Ring(), if ok then IR.Done else IR.Refused) == IR.Do(old(Ring()), SendOp(item, position))
      ensures View(all) == QW.Send(old(View(all)), position == Over)
    {
      hide Valid, Ring, IR.Do, QW.Post;
      MessagesFit();
      ghost var was := Receivers();
      if messages < length || position == Over {
        Store(item, position);
        MessagesFit();
        PostReceivers(tasks);
        PostAfterGrowing(was, tasks);
        ok := true;
      } else {
        NoRoom(item, position);
        ok := false;
      }
    }

    /** Growing first and then posting is posting. */
    static lemma PostAfterGrowing(h: QW.Half, tasks: nat)
      ensures QW.Post(h.(stock := h.stock + 1), false, tasks) == QW.Post(h, true, tasks)
    {
    }

    /** xQueueReceiveFromISR */
    method ReceiveFromIsr(tasks: nat, ghost all: set<QW.Task>) returns (ok: bool, item: seq<byte>)
      requires Valid() && tasks == |all|
      modifies this
      ensures Valid()
      ensures (Ring(), if ok then IR.Item(item) else IR.Refused) == IR.Do(old(Ring()), IR.Receive)
      ensures View(all) == QW.Receive(old(View(all)))
    {
      hide Valid, Ring, IR.Do, QW.Post;
      MessagesFit();
      ghost var was := Senders();
      ok, item := false, [];
      if messages > 0 {
        item := Fetch();
        MessagesFit();
        PostSenders(tasks);
        PostAfterGrowing(was, tasks);
        ok := true;
      } else {
        NoItem();
      }
    }

    // ---- The lock ----

    /** prvLockQueue */
    method LockQueue(ghost all: set<QW.Task>)
      requires messages <= length
      modifies `rxLock, `txLock
      ensures View(all) == old(View(all)).(receivers := QW.Lock(old(View(all)).receivers),
                                           senders := QW.Lock(old(View(all)).senders))
    {
      if rxLock == -1 {
        rxLock := 0;
      }
      if txLock == -1 {
        txLock := 0;
      }
    }

    /** The first critical section of prvUnlockQueue. */
    method UnlockTx(ghost all: set<QW.Task>)
      requires messages <= length
      modifies `txLock, `waitingToReceive, `wokenReceivers
      ensures View(all) == old(View(all)).(receivers := QW.Unlock(old(View(all)).receivers))
    {
      var tx := txLock;
      ghost var target := QW.WakeMany(View(all).receivers, if tx > 0 then tx else 0);
      while tx > 0
        invariant QW.WakeMany(View(all).receivers, if tx > 0 then tx else 0) == target
        invariant View(all).senders == old(View(all).senders)
      {
        if waitingToReceive != [] {
          WakeReceiver();
        } else {
          break;
        }
        tx := tx - 1;
      }
      txLock := -1;
    }

    /** The second critical section of prvUnlockQueue. */
    method UnlockRx(ghost all: set<QW.Task>)
      requires messages <= length
      modifies `rxLock, `waitingToSend, `wokenSenders
      ensures View(all) == old(View(all)).(senders := QW.Unlock(old(View(all)).senders))
    {
      var rx := rxLock;
      ghost var target := QW.WakeMany(View(all).senders, if rx > 0 then rx else 0);
      while rx > 0
        invariant QW.WakeMany(View(all).senders, if rx > 0 then rx else 0) == target
        invariant View(all).receivers == old(View(all).receivers)
      {
        if waitingToSend != [] {
          WakeSender();
          rx := rx - 1;
        } else {
          break;
        }
      }
      rxLock := -1;
    }
  }
}

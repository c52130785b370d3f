/**
  list.c on heap nodes: a circular doubly linked list closed by an end marker of
  maximal value, with a walking index. A ghost sequence records what the links spell
  out, and every operation is proved to do to the ring what module Rings says.
*/
module IntrusiveLists {
  import opened Rings
  import opened Ticks

  class ListItem {
    var value: nat
    var next: ListItem?
    var prev: ListItem?
    var container: List?

    /** vListInitialiseItem */
    constructor (v: nat)
      ensures value == v && container == null
    {
      value := v;
      container := null;
    }

    /** The four pointer writes shared by the two insertions. */
    method Hook(before: ListItem, after: ListItem)
      requires this != before && this != after
      modifies `next, `prev, before`next, after`prev
      ensures prev == before && next == after
      ensures before.next == this && after.prev == this
    {
      next := after;
      prev := before;
      before.next := this;
      after.prev := this;
    }

    /** The two pointer writes of a removal. */
    method Unhook()
      requires next != null && prev != null
      modifies next`prev, prev`next
      ensures old(next).prev == old(prev) && old(prev).next == old(next)
    {
      next.prev := prev;
      prev.next := next;
    }
  }

  class List {
    const marker: ListItem
    var count: nat
    var index: ListItem
    ghost var nodes: seq<ListItem>  // the cycle, from the marker on
    ghost var at: nat               // where on the cycle the index is

    static function After(s: seq<ListItem>, k: nat): nat {
      if k + 1 < |s| then k + 1 else 0
    }

    static function Before(s: seq<ListItem>, k: nat): nat
      requires k < |s|
    {
      if k > 0 then k - 1 else |s| - 1
    }

    static ghost predicate Cycle(s: seq<ListItem>)
      reads s
    {
      && (forall k :: 0 <= k < |s| ==> s[k].next == s[After(s, k)])
      && (forall k :: 0 <= k < |s| ==> s[k].prev == s[Before(s, k)])
    }

    /** The links are inverse and run through exactly the marker and the listed items,
        the count and the containers are exact, and the index is on the cycle. */
    ghost predicate Valid()
      reads this, marker, nodes
    {
      && at < |nodes|
      && nodes[0] == marker && index == nodes[at] && count + 1 == |nodes|
      && Distinct(nodes)
      && Cycle(nodes)
      && marker.value == MAX_DELAY
      && (forall x :: x in nodes && x != marker ==> x.container == this)
      && (forall x :: x in nodes ==> x.value <= MAX_DELAY)
    }

    lemma LinksOf(k: nat)
      requires Valid() && k < |nodes|
      ensures nodes[k].next == nodes[After(nodes, k)] && nodes[k].prev == nodes[Before(nodes, k)]
    {
    }

    ghost function Ring(): Ring<ListItem>
      reads this
      requires nodes != []
    {
      Rings.Ring(nodes[1..], at)
    }

    ghost function Values(): seq<nat>
      reads this, nodes
      requires nodes != []
    {
      seq(|nodes| - 1, i requires 0 <= i < |nodes| - 1 reads this, nodes => nodes[i + 1].value)
    }

    /** vListInitialise */
    constructor ()
      ensures Valid() && fresh(marker)
      ensures Ring() == Rings.Ring([], 0)
    {
      var m := new ListItem(MAX_DELAY);
      marker := m;
      index := m;
      count := 0;
      nodes := [m];
      at := 0;
      new;
      m.next := m;
      m.prev := m;
    }

    /** Hooking item in after the p-th node, and nothing else, keeps the cycle linked. */
    static lemma SpliceKeepsLinks(was: seq<ListItem>, item: ListItem, p: nat)
      requires p < |was|
      requires item.prev == was[p] && was[p].next == item
      requires item.next == was[After(was, p)] && was[After(was, p)].prev == item
      requires forall k :: 0 <= k < |was| && k != p ==> was[k].next == was[After(was, k)]
      requires forall k :: 0 <= k < |was| && k != After(was, p) ==> was[k].prev == was[Before(was, k)]
      ensures Cycle(Splice(was, p + 1, item))
    {
      var s := Splice(was, p + 1, item);
      forall k | 0 <= k < |s| ensures s[k].next == s[After(s, k)] {
        if k < p { assert s[k] == was[k]; } else if k > p + 1 { assert s[k] == was[k - 1]; }
      }
      forall k | 0 <= k < |s| ensures s[k].prev == s[Before(s, k)] {
        if k <= p { assert s[k] == was[k]; } else if k > p + 1 { assert s[k] == was[k - 1]; }
      }
    }

    /** Unhooking the p-th node, and nothing else, keeps the cycle linked. */
    static lemma CutKeepsLinks(was: seq<ListItem>, p: nat)
      requires 0 < p < |was|
      requires was[p - 1].next == was[After(was, p)] && was[After(was, p)].prev == was[p - 1]
      requires forall k :: 0 <= k < |was| && k != p && k != p - 1 ==> was[k].next == was[After(was, k)]
      requires forall k :: 0 <= k < |was| && k != p && k != After(was, p) ==> was[k].prev == was[Before(was, k)]
      ensures Cycle(Cut(was, p))
    {
      var s := Cut(was, p);
      forall k | 0 <= k < |s| ensures s[k].next == s[After(s, k)] {
        if k < p { assert s[k] == was[k]; } else { assert s[k] == was[k + 1]; }
      }
      forall k | 0 <= k < |s| ensures s[k].prev == s[Before(s, k)] {
        if k < p { assert s[k] == was[k]; } else { assert s[k] == was[k + 1]; }
      }
    }

    /** Everything but the links is still as Valid() wants it. */
    ghost predicate Settled()
      reads this, marker, nodes
    {
      && at < |nodes|
      && nodes[0] == marker && index == nodes[at] && count + 1 == |nodes|
      && Distinct(nodes)
      && marker.value == MAX_DELAY
      && (forall x :: x in nodes && x != marker ==> x.container == this)
      && (forall x :: x in nodes ==> x.value <= MAX_DELAY)
    }

    /** item has been hooked in after the p-th node. */
    ghost predicate Hooked(item: ListItem, p: nat)
      reads this, marker, nodes, item
    {
      && Settled() && p < |nodes| && item !in nodes && item.value <= MAX_DELAY
      && item.prev == nodes[p] && nodes[p].next == item
      && item.next == nodes[After(nodes, p)] && nodes[After(nodes, p)].prev == item
      && (forall k :: 0 <= k < |nodes| && k != p ==> nodes[k].next == nodes[After(nodes, k)])
      && (forall k :: 0 <= k < |nodes| && k != After(nodes, p) ==> nodes[k].prev == nodes[Before(nodes, k)])
    }

    /** m and a are the cycle and the index position this list is about to have, once
        every item on it names it as its container. */
    ghost predicate Draft(m: seq<ListItem>, a: nat)
      reads this, marker, m
    {
      && a < |m| && m[0] == marker && Distinct(m) && Cycle(m)
      && marker.value == MAX_DELAY
      && (forall x :: x in m ==> x.value <= MAX_DELAY)
    }

    lemma HookedIsDraft(item: ListItem, p: nat) returns (m: seq<ListItem>, a: nat)
      requires Hooked(item, p)
      ensures Draft(m, a) && m[a] == index && |m| == |nodes| + 1 == count + 2
      ensures forall x :: x in m ==> x in nodes || x == item
      ensures forall x :: x in m ==> x == marker || x == item || x.container == this
      ensures Rings.Ring(m[1..], a) == Rings.Insert(Ring(), p, item)
    {
      hide Cycle, Distinct;
      m, a := Splice(nodes, p + 1, item), if at > p then at + 1 else at;
      SpliceFacts(nodes, p + 1, item);
      hide Splice;
      TailOfSplice(nodes, p, item);
      SpliceKeepsLinks(nodes, item, p);
      SpliceAt(nodes, p + 1, item, 0);
      SpliceAt(nodes, p + 1, item, at);
    }

    /** Remember the list in the item and count it, once it has been hooked in. */
    method Adopt(item: ListItem, ghost m: seq<ListItem>, ghost a: nat)
      requires Draft(m, a) && m[a] == index && count + 2 == |m| && item != marker
      requires forall x :: x in m ==> x == marker || x == item || x.container == this
      modifies item`container, `count, `nodes, `at
      ensures Valid() && nodes == m && at == a
    {
      item.container := this;
      count := count + 1;
      nodes := m;
      at := a;
    }

    /** The statements both insertions end with, between the p-th node and the one after it. */
    method Place(item: ListItem, before: ListItem, after: ListItem, ghost p: nat)
      requires Valid() && item !in nodes && item.value <= MAX_DELAY
      requires p < |nodes| && before == nodes[p] && after == nodes[After(nodes, p)]
      modifies `count, `nodes, `at, item`next, item`prev, item`container, before`next, after`prev
      ensures Valid()
      ensures Ring() == Rings.Insert(old(Ring()), p, item)
    {
      item.Hook(before, after);
      forall k | 0 <= k < |nodes| && k != p ensures nodes[k].next == nodes[After(nodes, k)] {
        assert nodes[k] != nodes[p];
      }
      forall k | 0 <= k < |nodes| && k != After(nodes, p) ensures nodes[k].prev == nodes[Before(nodes, k)] {
        assert nodes[k] != nodes[After(nodes, p)];
      }
      ghost var m, a := HookedIsDraft(item, p);
      Adopt(item, m, a);
    }

    /** vListInsertEnd */
    method InsertEnd(item: ListItem)
      requires Valid() && item !in nodes && item.value <= MAX_DELAY
      modifies `count, `nodes, `at, item`next, item`prev, item`container, nodes`next, nodes`prev
      ensures Valid()
      ensures Ring() == Rings.InsertEnd(old(Ring()), item)
    {
      ghost var p := Before(nodes, at);
      LinksOf(at);
      assert p == Back(Ring()) && index == nodes[After(nodes, p)];
      hide Valid, Rings.Insert;
      Place(item, index.prev, index, p);
    }

    /** vListInsert: the scan stops at the first larger value, at the latest at the marker. */
    method Insert(item: ListItem)
      requires Valid() && item !in nodes && item.value <= MAX_DELAY
      modifies `count, `nodes, `at, item`next, item`prev, item`container, nodes`next, nodes`prev
      ensures Valid()
      ensures Ring() == Rings.Insert(old(Ring()), InsertPos(old(Values()), item.value), item)
    {
      ghost var p := InsertPos(Values(), item.value);
      var it := FindPosition(item.value);
      assert it.next == nodes[After(nodes, p)];
      Place(item, it, it.next, p);
    }

    method FindPosition(v: nat) returns (it: ListItem)
      requires Valid() && v <= MAX_DELAY
      ensures it == nodes[InsertPos(Values(), v)]
    {
      ghost var values := Values();
      ghost var p := InsertPos(values, v);
      assert forall k :: 0 <= k < |nodes| - 1 ==> values[k] == nodes[k + 1].value;
      if v == MAX_DELAY {
        assert p == |nodes| - 1;
        assert nodes[0].prev == nodes[p];
        it := marker.prev;
      } else {
        ghost var k := 0;
        it := marker;
        assert forall j :: 1 <= j <= p ==> nodes[j].value <= v by {
          forall j | 1 <= j <= p ensures nodes[j].value <= v {
            assert values[j - 1] <= v;
          }
        }
        assert nodes[k].next == nodes[After(nodes, k)];
        while it.next.value <= v
          invariant 0 <= k <= p && it == nodes[k]
          invariant it.next == nodes[After(nodes, k)]
          decreases p - k
        {
          assert k + 1 < |nodes| ==> values[k] <= v;
          it := it.next;
          k := k + 1;
        }
      }
    }

    /** The p-th node has been unhooked. */
    ghost predicate Unhooked(p: nat)
      reads this, marker, nodes
    {
      && Settled() && 0 < p < |nodes|
      && nodes[p - 1].next == nodes[After(nodes, p)] && nodes[After(nodes, p)].prev == nodes[p - 1]
      && (forall k :: 0 <= k < |nodes| && k != p && k != p - 1 ==> nodes[k].next == nodes[After(nodes, k)])
      && (forall k :: 0 <= k < |nodes| && k != p && k != After(nodes, p) ==> nodes[k].prev == nodes[Before(nodes, k)])
    }

    lemma UnhookedIsDraft(p: nat) returns (m: seq<ListItem>, a: nat)
      requires Unhooked(p)
      ensures Draft(m, a) && |m| == |nodes| - 1 == count
      ensures m[a] == if index == nodes[p] then nodes[p - 1] else index
      ensures nodes[p] !in m && forall x :: x in m ==> x in nodes
      ensures forall x :: x in m ==> x == marker || x.container == this
      ensures Rings.Ring(m[1..], a) == Rings.Remove(Ring(), p - 1)
    {
      hide Cycle, Distinct;
      m, a := Cut(nodes, p), if at >= p then at - 1 else at;
      TailOfCut(nodes, p - 1);
      assert (forall x :: x in m ==> x in nodes) && nodes[p] !in m && Distinct(m) by { CutFacts(nodes, p); }
      assert Cycle(m) by { CutKeepsLinks(nodes, p); }
      assert m[0] == marker by { CutAt(nodes, p, 0); }
      assert m[a] == (if at == p then nodes[p - 1] else index) by {
        CutAt(nodes, p, if at == p then p - 1 else at);
      }
    }

    /** Move the index off an item that has been unhooked, and forget the item. */
    method Release(item: ListItem, ghost m: seq<ListItem>, ghost a: nat) returns (left: nat)
      requires Draft(m, a) && item !in m && count == |m| && count > 0
      requires item.prev != null && m[a] == if index == item then item.prev else index
      requires forall x :: x in m ==> x == marker || x.container == this
      modifies item`container, `count, `index, `nodes, `at
      ensures Valid() && nodes == m && at == a && item.container == null && left == count
    {
      if index == item {
        index := item.prev;
      }
      item.container := null;
      count := count - 1;
      nodes := m;
      at := a;
      left := count;
    }

    /** Write the two links of a removal. */
    method UnhookAt(item: ListItem, ghost i: nat)
      requires Valid() && i + 1 < |nodes| && nodes[i + 1] == item && item.next != null && item.prev != null
      modifies item.next`prev, item.prev`next
      ensures Unhooked(i + 1) && item.prev == nodes[i]
    {
      assert item.next == nodes[After(nodes, i + 1)] && item.prev == nodes[i];
      item.Unhook();
      forall k | 0 <= k < |nodes| && k != i && k != i + 1 ensures nodes[k].next == nodes[After(nodes, k)] {
        assert nodes[k] != nodes[i];
      }
      forall k | 0 <= k < |nodes| && k != i + 1 && k != After(nodes, i + 1)
        ensures nodes[k].prev == nodes[Before(nodes, k)]
      {
        assert nodes[k] != nodes[After(nodes, i + 1)];
      }
    }

    /** uxListRemove */
    method Remove(item: ListItem, ghost i: nat) returns (left: nat)
      requires Valid() && i + 1 < |nodes| && nodes[i + 1] == item
      modifies `count, `index, `nodes, `at, nodes`next, nodes`prev, item`container
      ensures Valid()
      ensures Ring() == Rings.Remove(old(Ring()), i)
      ensures item.container == null && left == |Ring().items|
    {
      LinksOf(i + 1);
      hide Valid, Unhooked, Draft, Rings.Remove;
      UnhookAt(item, i);
      ghost var m, a := UnhookedIsDraft(i + 1);
      left := Release(item, m, a);
    }

    /** listGET_OWNER_OF_NEXT_ENTRY */
    method NextEntry() returns (item: ListItem)
      requires Valid() && |nodes| > 1
      modifies this`index, this`at
      ensures Valid()
      ensures Ring() == Advance(old(Ring())) && item == Selected(Ring())
    {
      assert nodes[at].next == nodes[After(nodes, at)];
      index := index.next;
      at := After(nodes, at);
      if index == marker {
        assert at == 0 && nodes[0].next == nodes[1];
        index := index.next;
        at := 1;
      }
      item := index;
    }
  }
}

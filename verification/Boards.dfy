/**
  Several lists that share their items: every item is on at most one of them, and
  remembers in its container field which one.
*/
module Boards {
  import opened Rings
  import opened TimedLists

  /** The lists, and the container field of every item that is on one. */
  datatype Board<L> = Board(lists: map<L, Ring<Entry>>, on: map<Id, L>)

  function ListOf<L>(b: Board<L>, l: L): Ring<Entry> {
    if l in b.lists then b.lists[l] else Ring([], 0)
  }

  function Items<L>(b: Board<L>, l: L): seq<Entry> {
    ListOf(b, l).items
  }

  ghost predicate RingsValid<L(!new)>(b: Board<L>) {
    forall l :: l in b.lists ==> b.lists[l].at <= |b.lists[l].items| && Separate(b.lists[l].items)
  }

  /** Whatever stands on a list names it as its container. */
  ghost predicate ItemsNameTheirList<L(!new)>(b: Board<L>) {
    forall l, i :: l in b.lists && 0 <= i < |b.lists[l].items| ==>
      b.lists[l].items[i].who in b.on && b.on[b.lists[l].items[i].who] == l
  }

  /** And whatever names a list stands on it. */
  ghost predicate ContainersAreRight<L>(b: Board<L>) {
    forall t :: t in b.on ==> Has(Items(b, b.on[t]), t)
  }

  ghost predicate InOrder<L(!new)>(b: Board<L>) {
    RingsValid(b) && ItemsNameTheirList(b) && ContainersAreRight(b)
  }

  function Insert<L>(b: Board<L>, l: L, p: nat, x: Entry): Board<L>
    requires p <= |Items(b, l)|
  {
    Board(b.lists[l := Rings.Insert(ListOf(b, l), p, x)], b.on[x.who := l])
  }

  /** listINSERT_END */
  function PutEnd<L>(b: Board<L>, l: L, x: Entry): Board<L> {
    Insert(b, l, if ListOf(b, l).at <= |Items(b, l)| then Back(ListOf(b, l)) else 0, x)
  }

  /** vListInsert */
  function PutSorted<L>(b: Board<L>, l: L, x: Entry): Board<L> {
    Insert(b, l, InsertPos(Values(Items(b, l)), x.value), x)
  }

  /** listREMOVE_ITEM, if the item is on a list. */
  function TakeOff<L>(b: Board<L>, t: Id): Board<L> {
    if t !in b.on then b
    else
      var r := ListOf(b, b.on[t]);
      var i := IndexFrom(r.items, t, 0);
      Board(if i < |r.items| then b.lists[b.on[t] := Rings.Remove(r, i)] else b.lists,
            map u | u in b.on && u != t :: b.on[u])
  }

  /** An item stands on the list it names, on no other, and once. */
  lemma OnExactlyOneList<L(!new)>(b: Board<L>, l: L, t: Id)
    requires InOrder(b)
    ensures Has(Items(b, l), t) <==> t in b.on && b.on[t] == l
    ensures Separate(Items(b, l))
  {
  }

  lemma SpliceHas(s: seq<Entry>, p: nat, x: Entry, t: Id)
    requires p <= |s|
    ensures Has(Splice(s, p, x), t) <==> Has(s, t) || t == x.who
    ensures Separate(s) && !Has(s, x.who) ==> Separate(Splice(s, p, x))
  {
    var r := Splice(s, p, x);
    assert r[p] == x;
    if Has(s, t) {
      var i :| 0 <= i < |s| && s[i].who == t;
      assert r[if i < p then i else i + 1] == s[i];
    }
    if Has(r, t) && t != x.who {
      var i :| 0 <= i < |r| && r[i].who == t;
      assert r[i] == s[if i < p then i else i - 1];
    }
  }

  lemma InsertKeeps<L(!new)>(b: Board<L>, l: L, p: nat, x: Entry)
    requires InOrder(b) && x.who !in b.on && p <= |Items(b, l)|
    ensures InOrder(Insert(b, l, p, x))
  {
    hide Has, Separate;
    var s, c := Items(b, l), Insert(b, l, p, x);
    assert !Has(s, x.who) by { OnExactlyOneList(b, l, x.who); }
    SpliceHas(s, p, x, x.who);
    assert Separate(s) by { OnExactlyOneList(b, l, x.who); }
    forall t | t in c.on ensures Has(Items(c, c.on[t]), t) {
      SpliceHas(s, p, x, t);
    }
    hide InOrder;
    InsertNames(b, l, p, x);
  }

  lemma InsertNames<L(!new)>(b: Board<L>, l: L, p: nat, x: Entry)
    requires ItemsNameTheirList(b) && x.who !in b.on && p <= |Items(b, l)|
    ensures ItemsNameTheirList(Insert(b, l, p, x))
  {
    var s, c := Items(b, l), Insert(b, l, p, x);
    forall m, i | m in c.lists && 0 <= i < |c.lists[m].items|
      ensures c.lists[m].items[i].who in c.on && c.on[c.lists[m].items[i].who] == m
    {
      if m == l {
        if i < p { assert c.lists[m].items[i] == s[i]; } else if i > p { assert c.lists[m].items[i] == s[i - 1]; }
      }
    }
  }

  lemma CutHas(s: seq<Entry>, i: nat, t: Id)
    requires i < |s| && Separate(s)
    ensures Has(Cut(s, i), t) <==> Has(s, t) && t != s[i].who
    ensures Separate(Cut(s, i))
  {
    var r := Cut(s, i);
    assert forall j :: 0 <= j < |r| ==> r[j] == s[if j < i then j else j + 1];
    if Has(s, t) && t != s[i].who {
      var j :| 0 <= j < |s| && s[j].who == t;
      assert r[if j < i then j else j - 1] == s[j];
    }
  }

  lemma TakeOffKeeps<L(!new)>(b: Board<L>, t: Id)
    requires InOrder(b)
    ensures InOrder(TakeOff(b, t)) && t !in TakeOff(b, t).on
    ensures forall u :: u != t ==> (u in TakeOff(b, t).on <==> u in b.on)
    ensures forall u :: u != t && u in b.on ==> TakeOff(b, t).on[u] == b.on[u]
  {
    if t in b.on {
      hide Has, Separate, IndexFrom;
      var s, c := Items(b, b.on[t]), TakeOff(b, t);
      var i := IndexFrom(s, t, 0);
      assert i < |s| by { IndexFound(s, t); }
      CutHas(s, i, t);
      forall u | u in c.on ensures Has(Items(c, c.on[u]), u) {
        CutHas(s, i, u);
      }
      assert RingsValid(c);
      hide InOrder;
      TakeOffNames(b, t);
    }
  }

  lemma IndexFound(s: seq<Entry>, t: Id)
    requires Has(s, t)
    ensures IndexFrom(s, t, 0) < |s| && s[IndexFrom(s, t, 0)].who == t
  {
  }

  lemma TakeOffNames<L(!new)>(b: Board<L>, t: Id)
    requires InOrder(b) && t in b.on
    ensures ItemsNameTheirList(TakeOff(b, t))
  {
    hide Has, IndexFrom;
    var l, c := b.on[t], TakeOff(b, t);
    var s := Items(b, l);
    var k := IndexFrom(s, t, 0);
    assert k < |s| && s[k].who == t by { IndexFound(s, t); }
    forall m, i | m in c.lists && 0 <= i < |c.lists[m].items|
      ensures c.lists[m].items[i].who in c.on && c.on[c.lists[m].items[i].who] == m
    {
      if m == l {
        assert c.lists[m].items[i] == s[if i < k then i else i + 1];
      }
    }
  }

  /** What is on the other lists does not change, and the list loses this item. */
  lemma TakeOffItems<L(!new)>(b: Board<L>, t: Id, l: L)
    requires InOrder(b)
    ensures Items(TakeOff(b, t), l) == Without(Items(b, l), t)
  {
    hide Has, Separate, IndexFrom;
    if t in b.on && b.on[t] == l {
      IndexFound(Items(b, l), t);
    } else {
      assert !Has(Items(b, l), t) by { OnExactlyOneList(b, l, t); }
      NotThere(Items(b, l), t);
    }
  }

  lemma NotThere(s: seq<Entry>, t: Id)
    requires !Has(s, t)
    ensures IndexFrom(s, t, 0) == |s| && Without(s, t) == s
  {
  }
}

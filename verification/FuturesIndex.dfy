/** Agreement of the four order indexes: the two book sides, the order dictionary,
    the market's per-user lists and the global per-user lists. */
module FuturesIndex {
  import opened Common
  import opened Futures

  /** A book side in price-time order, without two orders of one id. */
  ghost predicate Tidy(book: Book) {
    book == []
    || ( && Find(book[1..], book[0].id).None?
         && (forall x :: x in book[1..] ==> Before(book[0], x))
         && Tidy(book[1..]))
  }

  ghost predicate Descending(ids: seq<nat>) {
    ids == [] || ((forall x :: x in ids[1..] ==> x < ids[0]) && Descending(ids[1..]))
  }

  ghost predicate Owns(s: State, user: nat, id: nat) {
    Lookup(s, id).Some? && Lookup(s, id).value.user == user
  }

  ghost predicate ListAgrees(s: State, user: nat, ids: seq<nat>) {
    Descending(ids) && forall id :: id in ids <==> Owns(s, user, id)
  }

  /** The user lists hold exactly the resting orders of each user, newest first. */
  ghost predicate ListsAgree(s: State, lists: IdLists) {
    forall u :: ListAgrees(s, u, Ids(lists, u))
  }

  /** An order is in the dictionary iff it is in its owner's two lists iff it rests in
      exactly one side of the book, the one its side and operation choose. */
  ghost predicate Indexed(s: State) {
    && Sided(s) && Tidy(s.asks) && Tidy(s.bids)
    && (forall id :: id in s.orders <==> Lookup(s, id).Some?)
    && (forall id :: Find(s.asks, id).None? || Find(s.bids, id).None?)
    && ListsAgree(s, s.users) && ListsAgree(s, s.userOrders)
    && (forall id :: id in s.orders ==> id <= s.orderId)
  }

  // ----- one book side

  lemma {:induction false} MemberFound(book: Book, o: Order)
    requires Tidy(book) && o in book
    ensures Find(book, o.id) == Some(o)
  {
    if book[0] != o {
      MemberFound(book[1..], o);
    }
  }

  lemma BeforeIsTransitive(a: Order, b: Order, c: Order)
    requires Sells(a) == Sells(b) == Sells(c) && Before(a, b) && Before(b, c)
    ensures Before(a, c)
  {
  }

  lemma {:induction false} InsertTidy(book: Book, o: Order)
    requires Tidy(book) && Find(book, o.id).None? && forall x :: x in book ==> Sells(x) == Sells(o)
    ensures Tidy(Insert(book, o))
    ensures forall id :: Find(Insert(book, o), id) == if id == o.id then Some(o) else Find(book, id)
  {
    if book == [] || Before(o, book[0]) {
      assert ([o] + book)[1..] == book;
      if book != [] {
        forall x | x in book ensures Before(o, x) {
          if x != book[0] { BeforeIsTransitive(o, book[0], x); }
        }
      }
    } else {
      InsertTidy(book[1..], o);
      assert ([book[0]] + Insert(book[1..], o))[1..] == Insert(book[1..], o);
      assert Before(book[0], o);
    }
  }

  lemma {:induction false} RemoveTidy(book: Book, id: nat)
    requires Tidy(book)
    ensures Tidy(Remove(book, id))
    ensures forall x :: Find(Remove(book, id), x) == if x == id then None else Find(book, x)
  {
    if book != [] && book[0].id != id {
      RemoveTidy(book[1..], id);
      assert ([book[0]] + Remove(book[1..], id))[1..] == Remove(book[1..], id);
    }
  }

  /** The best order may change its running totals where it stands. */
  lemma ReplaceHeadTidy(m: Order, m2: Order, rest: Book)
    requires Tidy([m] + rest) && SameTerms(m2, m)
    ensures Tidy([m2] + rest)
    ensures Tidy(rest)
    ensures forall id :: Find([m2] + rest, id) == if id == m.id then Some(m2) else Find([m] + rest, id)
    ensures forall id :: Find(rest, id) == if id == m.id then None else Find([m] + rest, id)
  {
    assert ([m] + rest)[1..] == rest && ([m2] + rest)[1..] == rest;
  }

  // ----- one user list

  lemma {:induction false} InsertIdKeeps(ids: seq<nat>, id: nat)
    requires Descending(ids) && id !in ids
    ensures Descending(InsertId(ids, id))
    ensures forall x :: x in InsertId(ids, id) <==> x == id || x in ids
  {
    if ids == [] || id > ids[0] {
      assert ([id] + ids)[1..] == ids;
      assert forall x :: x in ids ==> x == ids[0] || x in ids[1..];
    } else {
      InsertIdKeeps(ids[1..], id);
      assert ([ids[0]] + InsertId(ids[1..], id))[1..] == InsertId(ids[1..], id);
      assert forall x :: x in ids <==> x == ids[0] || x in ids[1..];
    }
  }

  lemma {:induction false} RemoveIdKeeps(ids: seq<nat>, id: nat)
    requires Descending(ids)
    ensures Descending(RemoveId(ids, id))
    ensures forall x :: x in RemoveId(ids, id) <==> x != id && x in ids
    ensures id !in ids ==> RemoveId(ids, id) == ids
  {
    if ids != [] {
      assert forall x :: x in ids <==> x == ids[0] || x in ids[1..];
      if ids[0] != id {
        RemoveIdKeeps(ids[1..], id);
        assert ([ids[0]] + RemoveId(ids[1..], id))[1..] == RemoveId(ids[1..], id);
      }
    }
  }

  // ----- the index operations

  lemma ListsAfterPut(s: State, lists: IdLists, o: Order, s2: State)
    requires ListsAgree(s, lists) && Lookup(s, o.id).None?
    requires forall id :: Lookup(s2, id) == if id == o.id then Some(o) else Lookup(s, id)
    ensures ListsAgree(s2, AddToList(lists, o.user, o.id))
  {
    hide Lookup, Descending, InsertId;
    var lists2 := AddToList(lists, o.user, o.id);
    forall u ensures ListAgrees(s2, u, Ids(lists2, u)) {
      assert ListAgrees(s, u, Ids(lists, u));
      if u == o.user {
        assert !Owns(s, u, o.id);
        InsertIdKeeps(Ids(lists, u), o.id);
      }
    }
  }

  lemma ListsAfterDrop(s: State, lists: IdLists, o: Order, s2: State)
    requires ListsAgree(s, lists) && (Lookup(s, o.id).None? || Lookup(s, o.id) == Some(o))
    requires forall id :: Lookup(s2, id) == if id == o.id then None else Lookup(s, id)
    ensures ListsAgree(s2, DropFromList(lists, o.user, o.id))
    ensures Lookup(s, o.id).None? ==> DropFromList(lists, o.user, o.id) == lists
  {
    hide Lookup, Descending, RemoveId;
    var lists2 := DropFromList(lists, o.user, o.id);
    forall u ensures ListAgrees(s2, u, Ids(lists2, u)) {
      assert ListAgrees(s, u, Ids(lists, u));
      if u == o.user { RemoveIdKeeps(Ids(lists, u), o.id); }
    }
    if Lookup(s, o.id).None? {
      assert ListAgrees(s, o.user, Ids(lists, o.user));
      assert !Owns(s, o.user, o.id);
      RemoveIdKeeps(Ids(lists, o.user), o.id);
    }
  }

  lemma PutIndexed(s: State, o: Order)
    requires Indexed(s) && o.id !in s.orders && o.id <= s.orderId
    ensures Indexed(Put(s, o))
    ensures forall id :: Lookup(Put(s, o), id) == if id == o.id then Some(o) else Lookup(s, id)
  {
    hide Tidy, Find, Insert, AddToList, ListsAgree;
    var r := Put(s, o);
    assert Lookup(s, o.id).None?;
    InsertTidy(if Sells(o) then s.asks else s.bids, o);
    assert forall id :: Lookup(r, id) == if id == o.id then Some(o) else Lookup(s, id);
    ListsAfterPut(s, s.users, o, r);
    ListsAfterPut(s, s.userOrders, o, r);
  }

  lemma FinishIndexed(s: State, o: Order)
    requires Indexed(s) && Lookup(s, o.id) == Some(o)
    ensures Indexed(Finish(s, o))
    ensures forall id :: Lookup(Finish(s, o), id) == if id == o.id then None else Lookup(s, id)
  {
    hide Tidy, Find, Remove, DropFromList, ListsAgree;
    var r := Finish(s, o);
    FindFinds(s.asks, o.id);
    FindFinds(s.bids, o.id);
    RemoveTidy(if Sells(o) then s.asks else s.bids, o.id);
    assert forall id :: Lookup(r, id) == if id == o.id then None else Lookup(s, id);
    ListsAfterDrop(s, s.users, o, r);
    ListsAfterDrop(s, s.userOrders, o, r);
  }

  lemma {:induction false} RemoveAbsent(book: Book, id: nat)
    requires Find(book, id).None?
    ensures Remove(book, id) == book
  {
    if book != [] { RemoveAbsent(book[1..], id); }
  }

  /** Finishing an order that never rested changes nothing. */
  lemma FinishAbsent(s: State, o: Order)
    requires Indexed(s) && o.id !in s.orders
    ensures Finish(s, o) == s
  {
    assert Lookup(s, o.id).None?;
    RemoveAbsent(s.asks, o.id);
    RemoveAbsent(s.bids, o.id);
    ListsAfterDrop(s, s.users, o, s);
    ListsAfterDrop(s, s.userOrders, o, s);
    assert s.orders - {o.id} == s.orders;
  }

  lemma SameIndex(s: State, s2: State)
    requires Indexed(s)
    requires s2.asks == s.asks && s2.bids == s.bids && s2.orders == s.orders && s2.users == s.users
    requires s2.userOrders == s.userOrders && s2.orderId >= s.orderId
    ensures Indexed(s2)
  {
    hide Find, Tidy;
    assert forall id :: Lookup(s2, id) == Lookup(s, id);
  }

  lemma SameTermsMeans(a: Order, b: Order)
    requires SameTerms(a, b)
    ensures a.id == b.id && Sells(a) == Sells(b) && a.user == b.user
  {
  }

  lemma ReplacedLookup(s: State, t: Order, m: Order, m2: Order, rest: Book)
    requires Opposite(s, t) == [m] + rest && m.id == m2.id && Find([m] + rest, m.id) == Some(m)
    requires forall id :: Find([m2] + rest, id) == if id == m.id then Some(m2) else Find([m] + rest, id)
    requires forall id :: Find(s.asks, id).None? || Find(s.bids, id).None?
    ensures forall id :: Lookup(WithOpposite(s, t, [m2] + rest), id) == if id == m2.id then Some(m2) else Lookup(s, id)
  {
    hide Find, Sells;
    var r := WithOpposite(s, t, [m2] + rest);
    if Sells(t) {
      assert r.bids == [m2] + rest && r.asks == s.asks;
    } else {
      assert r.asks == [m2] + rest && r.bids == s.bids;
    }
  }

  lemma ReplaceHeadIndexed(s: State, t: Order, m2: Order)
    requires Indexed(s) && Opposite(s, t) != [] && SameTerms(m2, Opposite(s, t)[0])
    ensures var r := WithOpposite(s, t, [m2] + Opposite(s, t)[1..]);
            Indexed(r) && Lookup(r, m2.id) == Some(m2)
  {
    hide Tidy, Find, ListsAgree, SameTerms;
    var book := Opposite(s, t);
    var m, rest := book[0], book[1..];
    var r := WithOpposite(s, t, [m2] + rest);
    assert book == [m] + rest;
    MemberFound(book, m);
    ReplaceHeadTidy(m, m2, rest);
    SameTermsMeans(m2, m);
    ReplacedLookup(s, t, m, m2, rest);
    SameListsAfterReplace(s, s.users, m2, r);
    SameListsAfterReplace(s, s.userOrders, m2, r);
  }

  lemma SameListsAfterReplace(s: State, lists: IdLists, m2: Order, s2: State)
    requires ListsAgree(s, lists) && Lookup(s, m2.id).Some? && SameTerms(m2, Lookup(s, m2.id).value)
    requires forall id :: Lookup(s2, id) == if id == m2.id then Some(m2) else Lookup(s, id)
    ensures ListsAgree(s2, lists)
  {
    hide Lookup, Descending;
    forall u ensures ListAgrees(s2, u, Ids(lists, u)) {
      assert ListAgrees(s, u, Ids(lists, u));
      assert forall id :: Owns(s2, u, id) <==> Owns(s, u, id);
    }
  }

  lemma FinishFrame(s: State, o: Order)
    ensures Finish(s, o).orderId == s.orderId && Finish(s, o).orders == s.orders - {o.id}
  {
    hide Remove, DropFromList, Sided;
  }

  lemma StepIndexed(s: State, t: Order)
    requires Indexed(s) && Opposite(s, t) != []
    ensures Indexed(Step(s, t).0)
    ensures Step(s, t).0.orderId == s.orderId && Step(s, t).0.orders <= s.orders
  {
    hide Fill, Indexed, Lookup, Finish, SameTerms;
    var m := Opposite(s, t)[0];
    var f := Fill(s, t, m, Min(t.left, m.left), m.price);
    SameIndex(s, f.s);
    assert Opposite(f.s, t) == Opposite(s, t);
    ReplaceHeadIndexed(f.s, t, f.maker);
    var s1 := WithOpposite(f.s, t, [f.maker] + Opposite(s, t)[1..]);
    if f.maker.left == 0 {
      FinishIndexed(s1, f.maker);
      FinishFrame(s1, f.maker);
    }
  }
}

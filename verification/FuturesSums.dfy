/** Sums over the resting orders and over the positions of a futures market. */
module FuturesSums {
  import opened Common
  import opened Futures

  /** What is added up over orders: the closing amount on one position, or the
      margin frozen by one user's limit opens. */
  datatype Weight = CloseOf(key: PKey) | FreezeOf(user: nat)

  function Weigh(w: Weight, o: Order): real {
    match w
    case CloseOf(k) => if o.oper.Close? && KeyOf(o) == k then o.left as real else 0.0
    case FreezeOf(u) => if o.oper.Open? && o.kind.Limit? && o.user == u then o.freeze else 0.0
  }

  function Sum(book: Book, w: Weight): real {
    if book == [] then 0.0 else Weigh(w, book[0]) + Sum(book[1..], w)
  }

  lemma {:induction false} SumInsert(book: Book, o: Order, w: Weight)
    ensures Sum(Insert(book, o), w) == Sum(book, w) + Weigh(w, o)
  {
    if book == [] || Before(o, book[0]) {
      assert ([o] + book)[1..] == book;
    } else {
      SumInsert(book[1..], o, w);
      assert ([book[0]] + Insert(book[1..], o))[1..] == Insert(book[1..], o);
    }
  }

  lemma {:induction false} SumRemove(book: Book, id: nat, w: Weight)
    ensures Sum(Remove(book, id), w)
            == Sum(book, w) - (if Find(book, id).Some? then Weigh(w, Find(book, id).value) else 0.0)
    ensures Find(book, id).None? ==> Remove(book, id) == book
  {
    if book != [] && book[0].id != id {
      SumRemove(book[1..], id, w);
      assert ([book[0]] + Remove(book[1..], id))[1..] == Remove(book[1..], id);
    }
  }

  lemma {:induction false} SumBoundsMember(book: Book, o: Order, w: Weight)
    requires forall x :: x in book ==> Weigh(w, x) >= 0.0
    ensures Sum(book, w) >= 0.0
    ensures o in book ==> Sum(book, w) >= Weigh(w, o)
  {
    if book != [] {
      SumBoundsMember(book[1..], o, w);
    }
  }

  lemma SumHead(o: Order, rest: Book, w: Weight)
    ensures Sum([o] + rest, w) == Weigh(w, o) + Sum(rest, w)
    ensures Sum([o], w) == Weigh(w, o)
  {
    assert ([o] + rest)[1..] == rest && [o][1..] == [];
  }

  // ----- open interest

  function Share(p: Option<Pos>, onSide: bool): int {
    if p.Some? && onSide then Total(p.value) else 0
  }

  /** The volume held on one side of the market, free and frozen, by all users. */
  ghost function Interest(pos: map<PKey, Pos>, side: Side): int
    decreases |pos|
  {
    if pos == map[] then 0
    else
      var k :| k in pos;
      Share(Some(pos[k]), k.side == side) + Interest(pos - {k}, side)
  }

  lemma {:induction false} InterestSplits(pos: map<PKey, Pos>, side: Side, k: PKey)
    requires k in pos
    ensures Interest(pos, side) == Share(Some(pos[k]), k.side == side) + Interest(pos - {k}, side)
    decreases |pos|
  {
    var c :| c in pos && Interest(pos, side) == Share(Some(pos[c]), c.side == side) + Interest(pos - {c}, side);
    if c != k {
      InterestSplits(pos - {c}, side, k);
      InterestSplits(pos - {k}, side, c);
      assert (pos - {c}) - {k} == (pos - {k}) - {c};
    }
  }

  lemma InterestAfterSet(pos: map<PKey, Pos>, side: Side, k: PKey, p: Option<Pos>)
    ensures Interest(SetPos(pos, k, p), side)
            == Interest(pos, side) - Share(PosAt(pos, k), k.side == side) + Share(p, k.side == side)
  {
    var pos2 := SetPos(pos, k, p);
    assert pos2 - {k} == pos - {k};
    if k in pos { InterestSplits(pos, side, k); } else { assert pos - {k} == pos; }
    if p.Some? { InterestSplits(pos2, side, k); } else { assert pos2 - {k} == pos2; }
  }
}

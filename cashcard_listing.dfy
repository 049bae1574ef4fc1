/**
 * The table behind the cash-card endpoints and the owner-scoped, sorted, paged
 * listing that `findByOwner(owner, PageRequest.of(page, size, sort))` returns.
 * The table maps an id to the stored amount and owner; a listing takes the
 * caller's cards, sorts them by the requested order and cuts out one page.
 */
module CashCardListing {
  import opened Wrappers

  /** One row of the table, keyed by its id. */
  datatype Stored = Stored(amount: int, owner: string)

  /** A cash card as a handler hands it back: id, amount and owner. */
  datatype Card = Card(id: int, amount: int, owner: string)

  datatype SortField = ById | ByAmount
  datatype Direction = Asc | Desc
  datatype SortOrder = SortOrder(field: SortField, direction: Direction)

  /** `Sort.by(Sort.Direction.ASC, "amount")`, used when the request names no sort. */
  const DefaultOrder: SortOrder := SortOrder(ByAmount, Asc)

  /** `pageable.getSortOr(default)`: the requested order, or the default one. */
  function EffectiveOrder(requested: Option<SortOrder>): (o: SortOrder)
    ensures requested.Some? ==> o == requested.value
    ensures requested.None? ==> o.field == ByAmount && o.direction == Asc
  {
    match requested
    case Some(order) => order
    case None => DefaultOrder
  }

  function Key(c: Card, f: SortField): int {
    match f
    case ById => c.id
    case ByAmount => c.amount
  }

  /** `a` may come before `b` under order `o`. */
  predicate InOrder(a: Card, b: Card, o: SortOrder) {
    match o.direction
    case Asc => Key(a, o.field) <= Key(b, o.field)
    case Desc => Key(a, o.field) >= Key(b, o.field)
  }

  predicate Sorted(s: seq<Card>, o: SortOrder) {
    forall i, j :: 0 <= i < j < |s| ==> InOrder(s[i], s[j], o)
  }

  predicate Owns(table: map<int, Stored>, id: int, owner: string) {
    id in table && table[id].owner == owner
  }

  function CardAt(table: map<int, Stored>, id: int): Card
    requires id in table
  {
    Card(id, table[id].amount, table[id].owner)
  }

  function OwnedIds(table: map<int, Stored>, owner: string): set<int> {
    set id | id in table && table[id].owner == owner
  }

  /** The caller's cards, as a set: what the listing must enumerate. */
  function OwnedCards(table: map<int, Stored>, owner: string): set<Card> {
    set id | id in table && table[id].owner == owner :: CardAt(table, id)
  }

  /** The part of the table a caller can see: only the cards they own. */
  function OwnedView(table: map<int, Stored>, owner: string): (v: map<int, Stored>)
    ensures forall id :: id in v <==> Owns(table, id, owner)
    ensures forall id :: id in v ==> id in table && v[id] == table[id]
  {
    map id | id in table && table[id].owner == owner :: table[id]
  }

  lemma {:induction false} PickId(ids: set<int>) returns (x: int)
    requires ids != {}
    ensures x in ids
  {
    if forall y :: y !in ids {
      assert false;
    }
    x :| x in ids;
  }

  lemma {:induction false} MinimumExists(ids: set<int>)
    requires ids != {}
    ensures exists m :: m in ids && forall j :: j in ids ==> m <= j
    decreases |ids|
  {
    var x := PickId(ids);
    var rest := ids - {x};
    if rest == {} {
      forall j | j in ids ensures x <= j {
        assert j == x || j in rest;
      }
    } else {
      MinimumExists(rest);
      var m :| m in rest && forall j :: j in rest ==> m <= j;
      var least := if x < m then x else m;
      forall j | j in ids ensures least <= j {
        if j != x { assert j in rest; }
      }
      assert least in ids;
    }
  }

  /** The smallest id of a non-empty set. */
  function MinimumOf(ids: set<int>): (m: int)
    requires ids != {}
    ensures m in ids && forall j :: j in ids ==> m <= j
  {
    MinimumExists(ids);
    var m :| m in ids && forall j :: j in ids ==> m <= j;
    m
  }

  predicate StrictlyIncreasing(s: seq<int>) {
    forall i, j :: 0 <= i < j < |s| ==> s[i] < s[j]
  }

  /** The ids of a set in ascending order: the order a table scan by primary key yields. */
  function AscendingIds(ids: set<int>): (r: seq<int>)
    ensures |r| == |ids|
    ensures forall i :: 0 <= i < |r| ==> r[i] in ids
    ensures forall id :: id in ids ==> id in r
    ensures StrictlyIncreasing(r)
    decreases |ids|
  {
    if ids == {} then []
    else
      var m := MinimumOf(ids);
      var rest := AscendingIds(ids - {m});
      assert forall i :: 0 <= i < |rest| ==> m < rest[i];
      PrependSmallest(m, rest);
      [m] + rest
  }

  lemma {:induction false} PrependSmallest(m: int, rest: seq<int>)
    requires StrictlyIncreasing(rest) && forall i :: 0 <= i < |rest| ==> m < rest[i]
    ensures StrictlyIncreasing([m] + rest)
  {
    var r := [m] + rest;
    forall i, j | 0 <= i < j < |r| ensures r[i] < r[j] {
      assert r[j] == rest[j - 1];
      if i > 0 {
        assert r[i] == rest[i - 1];
      }
    }
  }

  function Rows(table: map<int, Stored>, ids: seq<int>): (r: seq<Card>)
    requires forall i :: 0 <= i < |ids| ==> ids[i] in table
    ensures |r| == |ids|
    ensures forall i :: 0 <= i < |ids| ==> r[i] == CardAt(table, ids[i])
  {
    if ids == [] then [] else [CardAt(table, ids[0])] + Rows(table, ids[1..])
  }

  /** Inserts one card into a sorted sequence, keeping it sorted. */
  function Insert(c: Card, s: seq<Card>, o: SortOrder): (r: seq<Card>)
    requires Sorted(s, o)
    ensures Sorted(r, o)
    ensures multiset(r) == multiset(s) + multiset{c}
    ensures |r| == |s| + 1 && (r[0] == c || (|s| > 0 && r[0] == s[0]))
    decreases |s|
  {
    if s == [] then [c]
    else if InOrder(c, s[0], o) then [c] + s
    else
      var tail := Insert(c, s[1..], o);
      assert s == [s[0]] + s[1..];
      [s[0]] + tail
  }

  /** The database's ORDER BY: a sorted permutation of the input. */
  function SortCards(s: seq<Card>, o: SortOrder): (r: seq<Card>)
    ensures Sorted(r, o)
    ensures multiset(r) == multiset(s)
    decreases |s|
  {
    if s == [] then []
    else
      assert s == [s[0]] + s[1..];
      Insert(s[0], SortCards(s[1..], o), o)
  }

  /** All of the caller's cards, sorted by `o`. */
  function Listing(table: map<int, Stored>, owner: string, o: SortOrder): seq<Card> {
    SortCards(Rows(table, AscendingIds(OwnedIds(table, owner))), o)
  }

  /** `PageRequest.of(page, size)`: the slice `[page * size, page * size + size)`, clipped to the input. */
  function PageOf(s: seq<Card>, page: nat, size: nat): (r: seq<Card>)
    requires size >= 1
  {
    var lo := if page * size <= |s| then page * size else |s|;
    var hi := if lo + size <= |s| then lo + size else |s|;
    s[lo..hi]
  }

  /** The cards stored under a set of ids. */
  function CardsOf(table: map<int, Stored>, ids: set<int>): set<Card>
    requires ids <= table.Keys
  {
    set id | id in ids :: CardAt(table, id)
  }

  lemma {:induction false} CardsOfSplit(table: map<int, Stored>, ids: set<int>, m: int)
    requires ids <= table.Keys && m in ids
    ensures CardsOf(table, ids) == CardsOf(table, ids - {m}) + {CardAt(table, m)}
    ensures CardAt(table, m) !in CardsOf(table, ids - {m})
  {
    var whole, rest := CardsOf(table, ids), CardsOf(table, ids - {m});
    forall c | c in whole ensures c in rest + {CardAt(table, m)} {
      var id :| id in ids && c == CardAt(table, id);
      if id != m { assert id in ids - {m}; }
    }
  }

  lemma {:induction false} MultisetOfAddedElement(a: set<Card>, x: Card)
    requires x !in a
    ensures multiset(a + {x}) == multiset(a) + multiset{x}
  {
    forall y ensures multiset(a + {x})[y] == (multiset(a) + multiset{x})[y] {
      if y == x {
        assert y in a + {x};
      }
    }
  }

  /** The first row of an ascending scan is the card with the smallest id. */
  lemma {:induction false} RowsOfAscending(table: map<int, Stored>, ids: set<int>, m: int)
    requires ids <= table.Keys && ids != {} && m == MinimumOf(ids)
    ensures multiset(Rows(table, AscendingIds(ids))) == multiset{CardAt(table, m)} + multiset(Rows(table, AscendingIds(ids - {m})))
  {
    var rest := AscendingIds(ids - {m});
    var r := AscendingIds(ids);
    assert r == [m] + rest;
    assert r[1..] == rest;
    assert Rows(table, r) == [CardAt(table, m)] + Rows(table, rest);
  }

  /** The set of cards under `ids` is the card under `m` plus those under the other ids, as a multiset. */
  lemma {:induction false} CardsOfAsMultiset(table: map<int, Stored>, ids: set<int>, m: int)
    requires ids <= table.Keys && m in ids
    ensures multiset(CardsOf(table, ids)) == multiset{CardAt(table, m)} + multiset(CardsOf(table, ids - {m}))
  {
    CardsOfSplit(table, ids, m);
    MultisetOfAddedElement(CardsOf(table, ids - {m}), CardAt(table, m));
  }

  lemma {:induction false} RowsAreCardsOf(table: map<int, Stored>, ids: set<int>)
    requires ids <= table.Keys
    ensures multiset(Rows(table, AscendingIds(ids))) == multiset(CardsOf(table, ids))
    decreases |ids|
  {
    if ids == {} {
      assert CardsOf(table, ids) == {};
    } else {
      var m := MinimumOf(ids);
      RowsAreCardsOf(table, ids - {m});
      RowsOfAscending(table, ids, m);
      CardsOfAsMultiset(table, ids, m);
    }
  }

  /**
   * A listing enumerates exactly the caller's cards, each once, in the
   * requested order: no card of another owner ever appears in it.
   */
  lemma {:induction false} ListingIsSortedOwnedCards(table: map<int, Stored>, owner: string, o: SortOrder)
    ensures Sorted(Listing(table, owner, o), o)
    ensures multiset(Listing(table, owner, o)) == multiset(OwnedCards(table, owner))
    ensures forall c :: c in Listing(table, owner, o) <==> c.owner == owner && c.id in table && table[c.id] == Stored(c.amount, owner)
  {
    var ids := OwnedIds(table, owner);
    RowsAreCardsOf(table, ids);
    assert OwnedCards(table, owner) == CardsOf(table, ids);
    var l := Listing(table, owner, o);
    forall c ensures c in l <==> c.owner == owner && c.id in table && table[c.id] == Stored(c.amount, owner) {
      assert c in l <==> c in multiset(l);
      if c.owner == owner && c.id in table && table[c.id] == Stored(c.amount, owner) {
        assert c == CardAt(table, c.id);
        assert c in OwnedCards(table, owner);
      }
    }
  }

  /** What a caller can list depends only on the cards they own. */
  lemma {:induction false} ListingSeesOnlyOwnedView(table: map<int, Stored>, owner: string, o: SortOrder)
    ensures Listing(table, owner, o) == Listing(OwnedView(table, owner), owner, o)
  {
    var v := OwnedView(table, owner);
    assert OwnedIds(table, owner) == OwnedIds(v, owner);
    var ids := AscendingIds(OwnedIds(table, owner));
    assert Rows(table, ids) == Rows(v, ids);
  }

  /** Every card of a sorted listing sits on page `k / size`, at position `k % size`. */
  lemma {:induction false} PagesCoverListing(s: seq<Card>, size: nat, k: nat)
    requires size >= 1 && k < |s|
    ensures k % size < |PageOf(s, k / size, size)|
    ensures PageOf(s, k / size, size)[k % size] == s[k]
  {
    var p, q := k / size, k % size;
    assert p * size == k - q && 0 <= q < size;
  }

  /** A page of a sorted listing is sorted and holds only cards of that listing. */
  lemma {:induction false} PageIsSortedSlice(s: seq<Card>, o: SortOrder, page: nat, size: nat)
    requires size >= 1 && Sorted(s, o)
    ensures Sorted(PageOf(s, page, size), o)
    ensures |PageOf(s, page, size)| <= size
    ensures forall c :: c in PageOf(s, page, size) ==> c in s
  {
  }
}

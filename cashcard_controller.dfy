/**
 * `CashCardController`: the five request handlers over the cash-card table.
 * Every handler scopes its lookup to the caller's name, so a card owned by
 * someone else behaves exactly like a card that does not exist.  The table
 * stands for the repository; `save` is insert-or-replace keyed by id and
 * `deleteById` removes the row.
 */
module CashCardController {
  import opened Wrappers
  import opened CashCardListing
  import JavaDecimal

  const StatusOk: int := 200
  const StatusCreated: int := 201
  const StatusNoContent: int := 204
  const StatusNotFound: int := 404

  const LocationPrefix: string := "cashcards/"

  /** The `Location` path of a created card: `cashcards/{id}`. */
  function LocationOf(id: int): string {
    LocationPrefix + JavaDecimal.LongToString(id)
  }

  /** Reads the id back from a `Location` path. */
  function IdOfLocation(location: string): Option<int> {
    var n := |LocationPrefix|;
    if |location| >= n && location[..n] == LocationPrefix then JavaDecimal.ParseLong(location[n..]) else None
  }

  /** Following the `Location` of a created card leads back to the id that was created. */
  lemma {:induction false} LocationRoundTrip(id: int)
    ensures IdOfLocation(LocationOf(id)) == Some(id)
  {
    var loc := LocationOf(id);
    assert loc[..|LocationPrefix|] == LocationPrefix;
    assert loc[|LocationPrefix|..] == JavaDecimal.LongToString(id);
    JavaDecimal.LongRoundTrip(id);
  }

  /** No card's owner changes between two tables, for the ids present in both. */
  predicate OwnersKept(before: map<int, Stored>, after: map<int, Stored>) {
    forall id :: id in before && id in after ==> after[id].owner == before[id].owner
  }

  /**
   * `save` replaces whatever row has the id it is given.  Creating a card
   * under an id that another caller already uses therefore hands that card
   * over to the creator: the owner of an existing card changes.
   */
  lemma {:induction false} CreateOverExistingIdChangesOwner(table: map<int, Stored>, id: int, amount: int, caller: string)
    requires id in table && table[id].owner != caller
    ensures !OwnersKept(table, table[id := Stored(amount, caller)])
    ensures Owns(table[id := Stored(amount, caller)], id, caller) && !Owns(table, id, caller)
  {
    var after := table[id := Stored(amount, caller)];
    assert after[id].owner != table[id].owner;
  }

  /** A card of another owner under `id` looks to the caller exactly like no card under `id`. */
  lemma {:induction false} ForeignCardLooksAbsent(table: map<int, Stored>, id: int, card: Stored, caller: string)
    requires card.owner != caller
    ensures OwnedView(table[id := card], caller) == OwnedView(table - {id}, caller)
  {
    var a, b := OwnedView(table[id := card], caller), OwnedView(table - {id}, caller);
    assert forall k :: k in a <==> k in b;
    assert forall k :: k in a ==> a[k] == b[k];
  }

  class CashCardController {
    /** The repository's rows: id to amount and owner. */
    var table: map<int, Stored>

    constructor (rows: map<int, Stored>)
      ensures table == rows
    {
      table := rows;
    }

    /** `findByIdAndOwner`: the card with that id, if the caller owns it. */
    function FindByIdAndOwner(id: int, owner: string): (r: Option<Card>)
      reads this
      ensures r.Some? <==> Owns(table, id, owner)
      ensures r.Some? ==> r.value == Card(id, table[id].amount, owner)
    {
      if id in table && table[id].owner == owner then Some(CardAt(table, id)) else None
    }

    /** `existsByIdAndOwner`: whether the caller owns a card with that id. */
    predicate ExistsByIdAndOwner(id: int, owner: string)
      reads this
    {
      id in table && table[id].owner == owner
    }

    /** `GET /cashcards/{id}`: 200 with the card when the caller owns it, otherwise 404 with no body. */
    method FindById(id: int, caller: string) returns (status: int, body: Option<Card>)
      ensures Owns(table, id, caller) ==> status == StatusOk && body == Some(Card(id, table[id].amount, caller))
      ensures !Owns(table, id, caller) ==> status == StatusNotFound && body == None
    {
      var found := FindByIdAndOwner(id, caller);
      if found.Some? {
        status, body := StatusOk, found;
      } else {
        status, body := StatusNotFound, None;
      }
    }

    /** `GET /cashcards?page=&size=&sort=`: one page of the caller's cards in the requested order. */
    method FindAll(caller: string, page: nat, size: nat, sort: Option<SortOrder>) returns (status: int, content: seq<Card>)
      requires size >= 1
      ensures status == StatusOk
      ensures content == PageOf(Listing(table, caller, EffectiveOrder(sort)), page, size)
      ensures Sorted(content, EffectiveOrder(sort)) && |content| <= size
      ensures forall c :: c in content ==> c.owner == caller && Owns(table, c.id, caller) && table[c.id].amount == c.amount
    {
      var order := EffectiveOrder(sort);
      var listing := Listing(table, caller, order);
      ListingIsSortedOwnedCards(table, caller, order);
      PageIsSortedSlice(listing, order, page, size);
      content := PageOf(listing, page, size);
      status := StatusOk;
    }

    /** `POST /cashcards`: stores the body's id and amount under the caller's name; 201 with the new card's location. */
    method CreateCashCard(id: int, amount: int, caller: string) returns (status: int, location: string)
      modifies this
      ensures table == old(table)[id := Stored(amount, caller)]
      ensures status == StatusCreated && location == LocationOf(id)
    {
      table := table[id := Stored(amount, caller)];
      status, location := StatusCreated, LocationOf(id);
    }

    /** `PUT /cashcards/{id}`: replaces the amount of an owned card (id and owner kept) with 204, otherwise 404 and no change. */
    method PutCashCard(id: int, amount: int, caller: string) returns (status: int)
      modifies this
      ensures old(Owns(table, id, caller)) ==> status == StatusNoContent && table == old(table)[id := Stored(amount, caller)]
      ensures !old(Owns(table, id, caller)) ==> status == StatusNotFound && table == old(table)
      ensures OwnersKept(old(table), table) && table.Keys == old(table).Keys
      ensures forall k :: k != id && k in table ==> table[k] == old(table)[k]
    {
      var existing := FindByIdAndOwner(id, caller);
      if existing.None? {
        return StatusNotFound;
      }
      table := table[existing.value.id := Stored(amount, caller)];
      status := StatusNoContent;
    }

    /** `DELETE /cashcards/{id}`: removes an owned card with 204, otherwise 404 and no change. */
    method DeleteCashCard(id: int, caller: string) returns (status: int)
      modifies this
      ensures old(Owns(table, id, caller)) ==> status == StatusNoContent && table == old(table) - {id}
      ensures !old(Owns(table, id, caller)) ==> status == StatusNotFound && table == old(table)
      ensures OwnersKept(old(table), table) && !Owns(table, id, caller)
      ensures forall k :: k != id ==> (k in table <==> k in old(table)) && (k in table ==> table[k] == old(table)[k])
    {
      if ExistsByIdAndOwner(id, caller) {
        table := table - {id};
        status := StatusNoContent;
      } else {
        status := StatusNotFound;
      }
    }
  }
}

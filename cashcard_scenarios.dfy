/**
 * The integration scenarios of the cash-card service, stated over the model.
 * Amounts are written in cents: 123.45 is 12345.
 */
module CashCardScenarios {
  import opened Wrappers
  import opened CashCardListing
  import opened CashCardController

  /** The seeded table: three cards of felix and one of kumar2. */
  const Seed: map<int, Stored> := map[
    99 := Stored(12345, "felix"),
    100 := Stored(100, "felix"),
    101 := Stored(15000, "felix"),
    102 := Stored(20000, "kumar2")]

  const Card99: Card := Card(99, 12345, "felix")
  const Card100: Card := Card(100, 100, "felix")
  const Card101: Card := Card(101, 15000, "felix")

  lemma {:induction false} FelixOwnsThreeCards()
    ensures OwnedCards(Seed, "felix") == {Card99, Card100, Card101}
  {
    var owned := OwnedCards(Seed, "felix");
    forall c | c in owned ensures c in {Card99, Card100, Card101} {
      var id :| id in Seed && Seed[id].owner == "felix" && c == CardAt(Seed, id);
      assert id == 99 || id == 100 || id == 101 || id == 102;
    }
    assert Card99 == CardAt(Seed, 99);
    assert Card100 == CardAt(Seed, 100);
    assert Card101 == CardAt(Seed, 101);
  }

  /** A sorted sequence holding felix's three cards once each. */
  lemma {:induction false} ThreeCardsOnceEach(l: seq<Card>)
    requires multiset(l) == multiset({Card99, Card100, Card101})
    ensures |l| == 3
    ensures forall c :: c in l <==> c in {Card99, Card100, Card101}
    ensures forall k :: 0 <= k < |l| ==> l[k] == Card99 || l[k] == Card100 || l[k] == Card101
  {
    assert |multiset(l)| == |l|;
    forall c ensures c in l <==> c in {Card99, Card100, Card101} {
      assert c in l <==> c in multiset(l);
    }
    forall k | 0 <= k < |l| ensures l[k] == Card99 || l[k] == Card100 || l[k] == Card101 {
      assert l[k] in l;
    }
  }

  lemma {:induction false} PositionOf(l: seq<Card>, c: Card) returns (i: nat)
    requires c in l
    ensures i < |l| && l[i] == c
  {
    if forall k :: 0 <= k < |l| ==> l[k] != c {
      assert false;
    }
    i :| 0 <= i < |l| && l[i] == c;
  }

  lemma {:induction false} LargestFirstWhenDescending(l: seq<Card>)
    requires Sorted(l, SortOrder(ByAmount, Desc))
    requires multiset(l) == multiset({Card99, Card100, Card101})
    ensures PageOf(l, 0, 1) == [Card101]
  {
    ThreeCardsOnceEach(l);
    var i := PositionOf(l, Card101);
    assert i == 0 || InOrder(l[0], l[i], SortOrder(ByAmount, Desc));
  }

  lemma {:induction false} AscendingByAmount(l: seq<Card>)
    requires Sorted(l, DefaultOrder)
    requires multiset(l) == multiset({Card99, Card100, Card101})
    ensures l == [Card100, Card99, Card101]
  {
    ThreeCardsOnceEach(l);
    var i := PositionOf(l, Card100);
    var j := PositionOf(l, Card101);
    assert i == 0 || InOrder(l[0], l[i], DefaultOrder);
    assert j == 2 || InOrder(l[j], l[2], DefaultOrder);
    assert l[0] == Card100 && l[2] == Card101;
    var k := PositionOf(l, Card99);
    assert k == 1;
  }

  /** `GET /cashcards?page=0&size=1&sort=amount,desc` as felix returns only the 150.00 card. */
  lemma {:induction false} LargestAmountComesFirstDescending()
    ensures PageOf(Listing(Seed, "felix", SortOrder(ByAmount, Desc)), 0, 1) == [Card101]
  {
    ListingIsSortedOwnedCards(Seed, "felix", SortOrder(ByAmount, Desc));
    FelixOwnsThreeCards();
    LargestFirstWhenDescending(Listing(Seed, "felix", SortOrder(ByAmount, Desc)));
  }

  /** `GET /cashcards` as felix, with no sort given, returns 1.00, 123.45, 150.00 in that order. */
  lemma {:induction false} DefaultListingIsAscendingByAmount()
    ensures Listing(Seed, "felix", EffectiveOrder(None)) == [Card100, Card99, Card101]
  {
    ListingIsSortedOwnedCards(Seed, "felix", DefaultOrder);
    FelixOwnsThreeCards();
    AscendingByAmount(Listing(Seed, "felix", DefaultOrder));
  }

  /**
   * felix reads his card 99 and gets its id and amount; a read of the
   * unknown id 1000 is 404 with no body.
   */
  method ReadScenarios() returns (statuses: seq<int>, bodies: seq<Option<Card>>)
    ensures statuses == [200, 404]
    ensures bodies == [Some(Card99), None]
  {
    var controller := new CashCardController(Seed);
    var ownRead, ownBody := controller.FindById(99, "felix");
    var unknownRead, unknownBody := controller.FindById(1000, "felix");
    statuses := [ownRead, unknownRead];
    bodies := [ownBody, unknownBody];
  }

  /** felix creates card 33 with 250.00 and reads it back through the location the response gives. */
  method CreateScenario() returns (statuses: seq<int>, body: Option<Card>)
    ensures statuses == [201, 200]
    ensures body == Some(Card(33, 25000, "felix"))
  {
    var controller := new CashCardController(Seed);
    var created, location := controller.CreateCashCard(33, 25000, "felix");
    LocationRoundTrip(33);
    var read;
    read, body := controller.FindById(IdOfLocation(location).value, "felix");
    statuses := [created, read];
  }

  /** felix sets card 99 to 19.99 and reads the new amount back. */
  method UpdateScenario() returns (statuses: seq<int>, body: Option<Card>)
    ensures statuses == [204, 200]
    ensures body == Some(Card(99, 1999, "felix"))
  {
    var controller := new CashCardController(Seed);
    var updated := controller.PutCashCard(99, 1999, "felix");
    var read;
    read, body := controller.FindById(99, "felix");
    statuses := [updated, read];
  }

  /** felix's updates of the unknown id 99999 and of kumar2's card 102 are 404 and leave the table as seeded. */
  method RejectedUpdateScenarios() returns (statuses: seq<int>, table: map<int, Stored>)
    ensures statuses == [404, 404]
    ensures table == Seed
  {
    var controller := new CashCardController(Seed);
    var unknownPut := controller.PutCashCard(99999, 1999, "felix");
    var foreignPut := controller.PutCashCard(102, 33333, "felix");
    statuses := [unknownPut, foreignPut];
    table := controller.table;
  }

  /** felix deletes card 99, and a read of it is then 404. */
  method DeleteScenario() returns (statuses: seq<int>)
    ensures statuses == [204, 404]
  {
    var controller := new CashCardController(Seed);
    var deleted := controller.DeleteCashCard(99, "felix");
    var read, _ := controller.FindById(99, "felix");
    statuses := [deleted, read];
  }

  /**
   * felix's deletes of the unknown id 99999 and of kumar2's card 102 are 404,
   * and kumar2 still reads card 102.
   */
  method RejectedDeleteScenarios() returns (statuses: seq<int>, body: Option<Card>)
    ensures statuses == [404, 404, 200]
    ensures body == Some(Card(102, 20000, "kumar2"))
  {
    var controller := new CashCardController(Seed);
    var unknownDelete := controller.DeleteCashCard(99999, "felix");
    var foreignDelete := controller.DeleteCashCard(102, "felix");
    var read;
    read, body := controller.FindById(102, "kumar2");
    statuses := [unknownDelete, foreignDelete, read];
  }
}

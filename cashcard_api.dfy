/**
 * A request to the cash-card service end to end: the security filter chain
 * decides first, and only a request it lets through reaches a handler, which
 * then acts under the authenticated user's name.
 */
module CashCardApi {
  import opened Wrappers
  import opened SecurityConfig
  import opened CashCardListing
  import opened CashCardController


  /** The five endpoints with their path variables, query parameters and body fields. */
  datatype Call =
    | GetOne(id: int)
    | List(page: nat, size: nat, sort: Option<SortOrder>)
    | Create(id: int, amount: int)
    | Update(id: int, amount: int)
    | Delete(id: int)

  datatype Response = Response(status: int, card: Option<Card>, cards: seq<Card>, location: Option<string>)

  function PathOf(call: Call): string {
    match call
    case GetOne(id) => CardPath(id)
    case List(_, _, _) => CashCardsPath
    case Create(_, _) => CashCardsPath
    case Update(id, _) => CardPath(id)
    case Delete(id) => CardPath(id)
  }

  lemma {:induction false} CallsAreCashCardPaths(call: Call)
    ensures UnderPattern(PathOf(call), CashCardsPath)
  {
    if call.GetOne? || call.Update? || call.Delete? {
      CardPathsAreCashCardPaths(call.id);
    }
  }

  /** Whether the credentials belong to a CARD-OWNER. */
  predicate IsCardOwner(creds: Option<Credentials>) {
    creds.Some? && Authenticate(creds.value).Some? && Authenticate(creds.value).value.role == CardOwner
  }

  method Handle(controller: CashCardController, call: Call, creds: Option<Credentials>) returns (r: Response)
    requires call.List? ==> call.size >= 1
    modifies controller
    ensures !IsCardOwner(creds) ==> controller.table == old(controller.table)
    ensures !IsCardOwner(creds) ==> r.status == (if creds.Some? && Authenticate(creds.value).Some? then StatusForbidden else StatusUnauthorized)
    ensures IsCardOwner(creds) && call.GetOne? ==>
      controller.table == old(controller.table) &&
      (Owns(old(controller.table), call.id, creds.value.username) ==>
        r.status == StatusOk && r.card == Some(Card(call.id, old(controller.table)[call.id].amount, creds.value.username))) &&
      (!Owns(old(controller.table), call.id, creds.value.username) ==> r.status == StatusNotFound && r.card == None)
    ensures IsCardOwner(creds) && call.Update? ==>
      (Owns(old(controller.table), call.id, creds.value.username) ==>
        r.status == StatusNoContent && controller.table == old(controller.table)[call.id := Stored(call.amount, creds.value.username)]) &&
      (!Owns(old(controller.table), call.id, creds.value.username) ==>
        r.status == StatusNotFound && controller.table == old(controller.table))
    ensures IsCardOwner(creds) && call.Delete? ==>
      (Owns(old(controller.table), call.id, creds.value.username) ==>
        r.status == StatusNoContent && controller.table == old(controller.table) - {call.id}) &&
      (!Owns(old(controller.table), call.id, creds.value.username) ==>
        r.status == StatusNotFound && controller.table == old(controller.table))
    ensures IsCardOwner(creds) && call.Create? ==>
      r.status == StatusCreated && r.location == Some(LocationOf(call.id)) &&
      controller.table == old(controller.table)[call.id := Stored(call.amount, creds.value.username)]
    ensures IsCardOwner(creds) && call.List? ==>
      r.status == StatusOk && controller.table == old(controller.table) &&
      r.cards == PageOf(Listing(old(controller.table), creds.value.username, EffectiveOrder(call.sort)), call.page, call.size)
  {
    var path := PathOf(call);
    CallsAreCashCardPaths(call);
    CashCardsNeedCardOwner(path, creds);
    var decision := Decide(path, creds);
    if !decision.Permit? {
      return Response(StatusOf(decision), None, [], None);
    }
    var caller := decision.principal.value;
    match call
    case GetOne(id) =>
      var status, body := controller.FindById(id, caller);
      r := Response(status, body, [], None);
    case List(page, size, sort) =>
      var status, content := controller.FindAll(caller, page, size, sort);
      r := Response(status, None, content, None);
    case Create(id, amount) =>
      var status, location := controller.CreateCashCard(id, amount, caller);
      r := Response(status, None, [], Some(location));
    case Update(id, amount) =>
      var status := controller.PutCashCard(id, amount, caller);
      r := Response(status, None, [], None);
    case Delete(id) =>
      var status := controller.DeleteCashCard(id, caller);
      r := Response(status, None, [], None);
  }

  /**
   * The authentication and authorization scenarios, stated over the whole
   * request path: an unknown user and a wrong password get 401, a valid
   * NON-OWNER gets 403, and felix asking for kumar2's card gets 404.
   */
  method GateTests() returns (statuses: seq<int>)
    ensures statuses == [401, 401, 403, 404]
  {
    var controller := new CashCardController(map[99 := Stored(12345, "felix"), 102 := Stored(20000, "kumar2")]);
    PrincipalTableIsExact(Credentials("BAD-USER", "abc123"));
    var r := Handle(controller, GetOne(99), Some(Credentials("BAD-USER", "abc123")));
    statuses := [r.status];
    PrincipalTableIsExact(Credentials("felix", "BAD-PASSWORD"));
    r := Handle(controller, List(0, 20, None), Some(Credentials("felix", "BAD-PASSWORD")));
    statuses := statuses + [r.status];
    PrincipalTableIsExact(Credentials("user-owns-no-cards", "qrs456"));
    r := Handle(controller, GetOne(99), Some(Credentials("user-owns-no-cards", "qrs456")));
    statuses := statuses + [r.status];
    PrincipalTableIsExact(Credentials("felix", "abc123"));
    r := Handle(controller, GetOne(102), Some(Credentials("felix", "abc123")));
    statuses := statuses + [r.status];
  }
}

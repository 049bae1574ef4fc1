/**
 * `SecurityConfig` as an access decision: HTTP Basic credentials are checked
 * against a fixed table of three principals, then the path rules decide.
 * Everything under `/h2-console` is open to everyone; everything under `/cashcards` needs the role
 * CARD-OWNER.  The decision never looks at which card a request names.
 */
module SecurityConfig {
  import opened Wrappers
  import JavaDecimal

  datatype Role = CardOwner | NonOwner

  /** One entry of the in-memory user store. */
  datatype UserDetails = UserDetails(username: string, password: string, role: Role)

  /** The user name and password a request carries in its Basic header. */
  datatype Credentials = Credentials(username: string, password: string)

  /**
   * What the filter chain does with a request: let it through (with the
   * authenticated user's name, if any), answer 401, or answer 403.
   */
  datatype Decision = Permit(principal: Option<string>) | Unauthorized | Forbidden

  const StatusUnauthorized: int := 401
  const StatusForbidden: int := 403

  const H2ConsolePath: string := "/h2-console"
  const CashCardsPath: string := "/cashcards"

  /** `testOnlyUsers`: the three principals, in the order they are registered. */
  const TestOnlyUsers: seq<UserDetails> := [
    UserDetails("felix", "abc123", CardOwner),
    UserDetails("user-owns-no-cards", "qrs456", NonOwner),
    UserDetails("kumar2", "xyz789", CardOwner)
  ]

  /** `loadUserByUsername` over a list of users: the first entry with that name. */
  function FindUser(users: seq<UserDetails>, name: string): (r: Option<UserDetails>)
    ensures r.Some? ==> r.value in users && r.value.username == name
    ensures r.None? ==> forall i :: 0 <= i < |users| ==> users[i].username != name
  {
    if users == [] then None
    else if users[0].username == name then Some(users[0])
    else FindUser(users[1..], name)
  }

  /** Basic authentication: a known user name with its password (the stored hash compared as plain text). */
  function Authenticate(c: Credentials): (r: Option<UserDetails>)
    ensures r.Some? ==> r.value in TestOnlyUsers && r.value.username == c.username && r.value.password == c.password
  {
    match FindUser(TestOnlyUsers, c.username)
    case Some(u) => if u.password == c.password then Some(u) else None
    case None => None
  }

  /** The path pattern "base, then slash, then anything": the base path itself or anything below it. */
  predicate UnderPattern(path: string, base: string) {
    path == base || (|path| > |base| && path[..|base| + 1] == base + "/")
  }

  /**
   * `securityFilterChain`.  Credentials that do not authenticate are refused
   * before any rule is consulted.  A path no rule covers is denied, which
   * Spring Security answers with 401 for an anonymous caller and 403 for an
   * authenticated one.
   */
  function Decide(path: string, creds: Option<Credentials>): Decision {
    match creds
    case None =>
      if UnderPattern(path, H2ConsolePath) then Permit(None) else Unauthorized
    case Some(c) =>
      match Authenticate(c)
      case None => Unauthorized
      case Some(user) =>
        if UnderPattern(path, H2ConsolePath) then Permit(Some(user.username))
        else if UnderPattern(path, CashCardsPath) && user.role == CardOwner then Permit(Some(user.username))
        else Forbidden
  }

  /** The HTTP status of a refusal. */
  function StatusOf(d: Decision): (status: int)
    requires !d.Permit?
    ensures status == StatusUnauthorized || status == StatusForbidden
  {
    if d.Unauthorized? then StatusUnauthorized else StatusForbidden
  }

  /** The path of one card: `/cashcards/{id}`. */
  function CardPath(id: int): string {
    CashCardsPath + "/" + JavaDecimal.LongToString(id)
  }

  /** The principal table holds exactly these three user name, password and role triples. */
  lemma {:induction false} PrincipalTableIsExact(c: Credentials)
    ensures Authenticate(c).Some? <==>
      c == Credentials("felix", "abc123") || c == Credentials("user-owns-no-cards", "qrs456") || c == Credentials("kumar2", "xyz789")
    ensures Authenticate(c).Some? ==> (Authenticate(c).value.role == NonOwner <==> c.username == "user-owns-no-cards")
  {
    var users := TestOnlyUsers;
    assert users[1..][1..] == [users[2]];
  }

  /** A user name nobody registered, or a wrong password, is answered with 401 on every path. */
  lemma {:induction false} BadCredentialsAreUnauthorized(path: string, c: Credentials)
    requires forall i :: 0 <= i < |TestOnlyUsers| ==>
      TestOnlyUsers[i].username != c.username || TestOnlyUsers[i].password != c.password
    ensures Decide(path, Some(c)) == Unauthorized
  {
  }

  /** Anything under `/h2-console` is let through without credentials. */
  lemma {:induction false} H2ConsoleIsOpen(path: string)
    requires UnderPattern(path, H2ConsolePath)
    ensures Decide(path, None) == Permit(None)
  {
  }

  lemma {:induction false} CardPathsAreCashCardPaths(id: int)
    ensures UnderPattern(CardPath(id), CashCardsPath) && !UnderPattern(CardPath(id), H2ConsolePath)
  {
    var p := CardPath(id);
    assert p[..|CashCardsPath| + 1] == CashCardsPath + "/";
    assert p[1] != H2ConsolePath[1];
  }

  /**
   * Under `/cashcards` a request gets through exactly when its credentials
   * belong to a CARD-OWNER, and then under that user's name; valid
   * credentials of any other role get 403, anything else 401.
   */
  lemma {:induction false} CashCardsNeedCardOwner(path: string, creds: Option<Credentials>)
    requires UnderPattern(path, CashCardsPath)
    ensures Decide(path, creds).Permit? <==>
      creds.Some? && Authenticate(creds.value).Some? && Authenticate(creds.value).value.role == CardOwner
    ensures Decide(path, creds).Permit? ==> Decide(path, creds).principal == Some(creds.value.username)
    ensures Decide(path, creds) == Forbidden <==>
      creds.Some? && Authenticate(creds.value).Some? && Authenticate(creds.value).value.role != CardOwner
  {
    assert !UnderPattern(path, H2ConsolePath) by {
      if |path| > |CashCardsPath| {
        assert path[..|CashCardsPath| + 1][1] == 'c';
      } else {
        assert path == CashCardsPath;
      }
    }
  }

  /** The decision for a card path does not depend on which card it names. */
  lemma {:induction false} GateIgnoresCardId(id: int, creds: Option<Credentials>)
    ensures Decide(CardPath(id), creds) == Decide(CashCardsPath, creds)
  {
    CardPathsAreCashCardPaths(id);
    CashCardsNeedCardOwner(CardPath(id), creds);
    CashCardsNeedCardOwner(CashCardsPath, creds);
  }

  /** user-owns-no-cards, with the right password, is refused 403 on any card path. */
  lemma {:induction false} NonOwnerIsForbidden(id: int)
    ensures Decide(CardPath(id), Some(Credentials("user-owns-no-cards", "qrs456"))) == Forbidden
  {
    CardPathsAreCashCardPaths(id);
  }
}

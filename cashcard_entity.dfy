/**
 * The `CashCard` JPA entity: a mutable object with a nullable id, a nullable
 * amount and a nullable owner, three constructors, getters, setters and a
 * `toString` that prints the id and the amount but not the owner.
 */
module CashCardEntity {
  import opened Wrappers
  import JavaDecimal

  const DescriptionPrefix: string := "CashCard{id="
  const AmountSeparator: string := ", amount="

  /** Java's string conversion of a nullable number: its decimal text, or `null`. */
  function ShowNullable(v: Option<int>): (s: string)
    ensures |s| >= 1 && ',' !in s
  {
    match v
    case None => "null"
    case Some(n) => JavaDecimal.LongToString(n)
  }

  /** Inverse of ShowNullable; `None` when the text is neither `null` nor a number. */
  function ReadNullable(s: string): Option<Option<int>> {
    if s == "null" then Some(None)
    else
      match JavaDecimal.ParseLong(s)
      case Some(n) => Some(Some(n))
      case None => None
  }

  lemma {:induction false} ShowNullableRoundTrip(v: Option<int>)
    ensures ReadNullable(ShowNullable(v)) == Some(v)
  {
    match v
    case None =>
    case Some(n) =>
      var s := JavaDecimal.LongToString(n);
      JavaDecimal.LongRoundTrip(n);
      assert s != "null" by {
        assert s[0] == '-' || JavaDecimal.IsDigit(s[0]);
      }
  }

  /** Position of the first occurrence of `c` in `s`, or `|s|` when there is none. */
  function FirstIndexOf(s: string, c: char): (k: nat)
    ensures k <= |s|
    ensures k < |s| ==> s[k] == c
    ensures forall i :: 0 <= i < k ==> s[i] != c
    decreases |s|
  {
    if |s| == 0 then 0
    else if s[0] == c then 0
    else 1 + FirstIndexOf(s[1..], c)
  }

  /** The text `toString` builds from an id and an amount. */
  function Describe(id: Option<int>, amount: Option<int>): string {
    DescriptionPrefix + ShowFields(id, amount) + "}"
  }

  /** The text between the braces of a description. */
  function ShowFields(id: Option<int>, amount: Option<int>): string {
    ShowNullable(id) + AmountSeparator + ShowNullable(amount)
  }

  /** Reads an id and an amount back from a `toString` text. */
  function ReadDescription(s: string): Option<(Option<int>, Option<int>)> {
    var n := |DescriptionPrefix|;
    if |s| < n + 1 || s[..n] != DescriptionPrefix || s[|s| - 1] != '}' then None
    else ReadFields(s[n..|s| - 1])
  }

  /** Reads the text between the braces: a nullable id, the separator, a nullable amount. */
  function ReadFields(body: string): Option<(Option<int>, Option<int>)> {
    var k := FirstIndexOf(body, ',');
    var m := |AmountSeparator|;
    if k + m > |body| || body[k..k + m] != AmountSeparator then None
    else
      match (ReadNullable(body[..k]), ReadNullable(body[k + m..]))
      case (Some(i), Some(a)) => Some((i, a))
      case _ => None
  }

  /** The description determines exactly the id and the amount, and nothing else. */
  lemma {:induction false} DescriptionRoundTrip(id: Option<int>, amount: Option<int>)
    ensures ReadDescription(Describe(id, amount)) == Some((id, amount))
  {
    Unframe(ShowFields(id, amount));
    FieldsRoundTrip(id, amount);
  }

  /** The text between the prefix and the closing brace is what the fields are read from. */
  lemma {:induction false} Unframe(fields: string)
    ensures ReadDescription(DescriptionPrefix + fields + "}") == ReadFields(fields)
  {
    var s := DescriptionPrefix + fields + "}";
    var n := |DescriptionPrefix|;
    assert s[..n] == DescriptionPrefix;
    assert s[n..|s| - 1] == fields;
  }

  lemma {:induction false} FieldsRoundTrip(id: Option<int>, amount: Option<int>)
    ensures ReadFields(ShowFields(id, amount)) == Some((id, amount))
  {
    SeparatedFields(ShowNullable(id), ShowNullable(amount));
    ShowNullableRoundTrip(id);
    ShowNullableRoundTrip(amount);
  }

  /** The first comma of `a, amount=b` is the separator's, when `a` holds none. */
  lemma {:induction false} SeparatedFields(a: string, b: string)
    requires ',' !in a
    ensures var body, k, m := a + AmountSeparator + b, |a|, |AmountSeparator|;
      FirstIndexOf(body, ',') == k && k + m <= |body| && body[..k] == a &&
      body[k..k + m] == AmountSeparator && body[k + m..] == b
  {
    var body := a + AmountSeparator + b;
    assert body[|a|] == ',';
    assert forall i :: 0 <= i < |a| ==> body[i] == a[i];
    assert body[..|a|] == a;
    assert body[|a|..|a| + |AmountSeparator|] == AmountSeparator;
    assert body[|a| + |AmountSeparator|..] == b;
  }

  class CashCard {
    var id: Option<int>
    var amount: Option<int>
    var owner: Option<string>

    /** `CashCard(Long, Double, String)`: all three fields exactly as given. */
    constructor (id: Option<int>, amount: Option<int>, owner: Option<string>)
      ensures this.id == id && this.amount == amount && this.owner == owner
    {
      this.id := id;
      this.amount := amount;
      this.owner := owner;
    }

    /** `CashCard(Long, Double)`: the owner stays null. */
    constructor WithoutOwner(id: Option<int>, amount: Option<int>)
      ensures this.id == id && this.amount == amount && owner == None
    {
      this.id := id;
      this.amount := amount;
      owner := None;
    }

    /** The no-argument constructor JPA needs: every field null. */
    constructor Empty()
      ensures id == None && amount == None && owner == None
    {
      id := None;
      amount := None;
      owner := None;
    }

    function GetId(): Option<int>
      reads this
    {
      id
    }

    function GetAmount(): Option<int>
      reads this
    {
      amount
    }

    function GetOwner(): Option<string>
      reads this
    {
      owner
    }

    method SetId(id: Option<int>)
      modifies this
      ensures GetId() == id
      ensures GetAmount() == old(GetAmount()) && GetOwner() == old(GetOwner())
    {
      this.id := id;
    }

    method SetAmount(amount: Option<int>)
      modifies this
      ensures GetAmount() == amount
      ensures GetId() == old(GetId()) && GetOwner() == old(GetOwner())
    {
      this.amount := amount;
    }

    method SetOwner(owner: Option<string>)
      modifies this
      ensures GetOwner() == owner
      ensures GetId() == old(GetId()) && GetAmount() == old(GetAmount())
    {
      this.owner := owner;
    }

    /** `CashCard{id=<id>, amount=<amount>}`: the owner never appears. */
    function ToString(): (s: string)
      reads this
      ensures |s| > |DescriptionPrefix| && s[..|DescriptionPrefix|] == DescriptionPrefix && s[|s| - 1] == '}'
      ensures ReadDescription(s) == Some((id, amount))
    {
      DescriptionRoundTrip(id, amount);
      Describe(id, amount)
    }
  }
}

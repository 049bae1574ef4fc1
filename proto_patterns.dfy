/**
 * What the two `.proto` service parsers share: the records they build (a
 * service with its rpc methods, each method with its HTTP verb, path and path
 * parameter) and the line patterns they look for, written out character by
 * character.  `\s` is an ASCII white-space character and `\w` an ASCII
 * letter, digit or underscore.  Each pattern is matched the way the regular
 * expression engine matches it: greedy runs that never need to back off,
 * because the character after each run cannot continue the pattern any other
 * way.
 */
module ProtoPatterns {
  import opened Wrappers

  /** The name and message types of an `rpc Name(Request) returns (Response) {` line. */
  datatype RpcHeader = RpcHeader(name: string, requestType: string, responseType: string)

  /** A verb and path read from a line of a `google.api.http` option block. */
  datatype HttpRule = HttpRule(verb: string, path: string)

  datatype RpcMethod = RpcMethod(
    name: string, requestType: string, responseType: string,
    httpMethod: string, path: string, param: Option<string>)

  datatype Service = Service(name: string, methods: seq<RpcMethod>)

  predicate IsSpace(c: char) {
    c == ' ' || c == '\t' || c == '\n' || c == '\r' || c == '\U{000B}' || c == '\U{000C}'
  }

  predicate IsWordChar(c: char) {
    ('a' <= c <= 'z') || ('A' <= c <= 'Z') || ('0' <= c <= '9') || c == '_'
  }

  predicate AllSpace(s: string) {
    forall i :: 0 <= i < |s| ==> IsSpace(s[i])
  }

  /** One or more word characters: what `(\w+)` captures. */
  predicate IsWord(s: string) {
    |s| >= 1 && forall i :: 0 <= i < |s| ==> IsWordChar(s[i])
  }

  /** The end of the run of white space that starts at `i`. */
  function SkipSpaces(s: string, i: nat): (j: nat)
    requires i <= |s|
    ensures i <= j <= |s|
    ensures j < |s| ==> !IsSpace(s[j])
    decreases |s| - i
  {
    if i < |s| && IsSpace(s[i]) then SkipSpaces(s, i + 1) else i
  }

  /** The end of the run of word characters that starts at `i`. */
  function SkipWord(s: string, i: nat): (j: nat)
    requires i <= |s|
    ensures i <= j <= |s|
    ensures j < |s| ==> !IsWordChar(s[j])
    decreases |s| - i
  {
    if i < |s| && IsWordChar(s[i]) then SkipWord(s, i + 1) else i
  }

  /** The end of the run of characters other than `"` that starts at `i`. */
  function SkipNonQuote(s: string, i: nat): (j: nat)
    requires i <= |s|
    ensures i <= j <= |s|
    ensures j < |s| ==> s[j] == '"'
    decreases |s| - i
  {
    if i < |s| && s[i] != '"' then SkipNonQuote(s, i + 1) else i
  }

  lemma {:induction false} SkipSpacesRun(s: string, i: nat, k: nat)
    requires i <= |s| && i <= k < SkipSpaces(s, i)
    ensures IsSpace(s[k])
    decreases |s| - i
  {
    if k > i {
      SkipSpacesRun(s, i + 1, k);
    }
  }

  lemma {:induction false} SkipWordRun(s: string, i: nat, k: nat)
    requires i <= |s| && i <= k < SkipWord(s, i)
    ensures IsWordChar(s[k])
    decreases |s| - i
  {
    if k > i {
      SkipWordRun(s, i + 1, k);
    }
  }

  /** `lit` occurs in `s` at position `i`. */
  predicate HasAt(s: string, i: nat, lit: string) {
    i + |lit| <= |s| && s[i..i + |lit|] == lit
  }

  /** The end of the non-empty run of word characters that starts at `i`, if there is one. */
  function WordEnd(s: string, i: nat): (r: Option<nat>)
    requires i <= |s|
    ensures r.Some? ==> i < r.value <= |s| && IsWord(s[i..r.value])
    ensures r.Some? ==> r.value == |s| || !IsWordChar(s[r.value])
  {
    var e := SkipWord(s, i);
    if e == i then None
    else
      assert IsWord(s[i..e]) by {
        forall k | 0 <= k < e - i
          ensures IsWordChar(s[i..e][k])
        {
          SkipWordRun(s, i, i + k);
        }
      }
      Some(e)
  }

  /** `\s*service\s+(\w+)\s*{` at the start of a line: the service name. */
  function MatchService(line: string): (r: Option<string>)
    ensures r.Some? ==> IsWord(r.value) && HasAt(line, SkipSpaces(line, 0), "service")
  {
    var a := SkipSpaces(line, 0);
    if !HasAt(line, a, "service") then None
    else
      var b := SkipSpaces(line, a + 7);
      if b == a + 7 then None
      else
        match WordEnd(line, b)
        case None => None
        case Some(c) =>
          if HasAt(line, SkipSpaces(line, c), "{") then Some(line[b..c]) else None
  }

  /** `\s*rpc\s+(\w+)\s*\((\w+)\)\s+returns\s+\((\w+)\)\s*{` at the start of a line. */
  function MatchRpc(line: string): (r: Option<RpcHeader>)
    ensures r.Some? ==> IsWord(r.value.name) && IsWord(r.value.requestType) && IsWord(r.value.responseType)
    ensures r.Some? ==> HasAt(line, SkipSpaces(line, 0), "rpc")
  {
    var a := SkipSpaces(line, 0);
    if !HasAt(line, a, "rpc") then None else RpcAfterKeyword(line, a + 3)
  }

  /** `\s+(\w+)\s*\(` and the types, from position `j` just after `rpc`. */
  function RpcAfterKeyword(line: string, j: nat): (r: Option<RpcHeader>)
    requires j <= |line|
    ensures r.Some? ==> IsWord(r.value.name) && IsWord(r.value.requestType) && IsWord(r.value.responseType)
  {
    var b := SkipSpaces(line, j);
    if b == j then None
    else
      match WordEnd(line, b)
      case None => None
      case Some(c) =>
        match RpcAfterName(line, c)
        case None => None
        case Some(types) => Some(RpcHeader(line[b..c], types.0, types.1))
  }

  /** `\s*\(` and the types, from position `c` just after the rpc's name. */
  function RpcAfterName(line: string, c: nat): (r: Option<(string, string)>)
    requires c <= |line|
    ensures r.Some? ==> IsWord(r.value.0) && IsWord(r.value.1)
  {
    var d := SkipSpaces(line, c);
    if !HasAt(line, d, "(") then None else RpcTypes(line, d + 1)
  }

  /** `\s*{` from position `i`: the brace that ends an opening line. */
  predicate BraceAfter(line: string, i: nat)
    requires i <= |line|
  {
    HasAt(line, SkipSpaces(line, i), "{")
  }

  /** `\((\w+)\)\s*{` from position `g`: the word in parentheses. */
  function ParenWord(line: string, g: nat): (r: Option<string>)
    requires g <= |line|
    ensures r.Some? ==> IsWord(r.value)
  {
    if !HasAt(line, g, "(") then None
    else
      match WordEnd(line, g + 1)
      case None => None
      case Some(h) => if HasAt(line, h, ")") && BraceAfter(line, h + 1) then Some(line[g + 1..h]) else None
  }

  /** `\s+returns\s+\((\w+)\)\s*{` from position `j`: the response type. */
  function ReturnsClause(line: string, j: nat): (r: Option<string>)
    requires j <= |line|
    ensures r.Some? ==> IsWord(r.value)
  {
    var f := SkipSpaces(line, j);
    if f == j || !HasAt(line, f, "returns") then None
    else
      var g := SkipSpaces(line, f + 7);
      if g == f + 7 then None else ParenWord(line, g)
  }

  /** `(\w+)\)\s+returns\s+\((\w+)\)\s*{` from position `i`: the request and response types. */
  function RpcTypes(line: string, i: nat): (r: Option<(string, string)>)
    requires i <= |line|
    ensures r.Some? ==> IsWord(r.value.0) && IsWord(r.value.1)
  {
    match WordEnd(line, i)
    case None => None
    case Some(e) =>
      if !HasAt(line, e, ")") then None
      else
        match ReturnsClause(line, e + 1)
        case None => None
        case Some(resp) => Some((line[i..e], resp))
  }

  /** `\s*option\s+\(google\.api\.http\)\s*=\s*{` at the start of a line. */
  predicate MatchesHttpOption(line: string) {
    var a := SkipSpaces(line, 0);
    HasAt(line, a, "option") && HttpOptionAfterKeyword(line, a + 6)
  }

  /** `\s+\(google\.api\.http\)\s*=\s*{` from position `j` just after `option`. */
  predicate HttpOptionAfterKeyword(line: string, j: nat)
    requires j <= |line|
  {
    var b := SkipSpaces(line, j);
    b > j && HasAt(line, b, "(google.api.http)") && AssignsBlock(line, b + 17)
  }

  /** `\s*=\s*{` from position `i`. */
  predicate AssignsBlock(line: string, i: nat)
    requires i <= |line|
  {
    var c := SkipSpaces(line, i);
    HasAt(line, c, "=") && BraceAfter(line, c + 1)
  }

  const HttpVerbs: seq<string> := ["get", "post", "put", "delete"]

  /** ASCII upper-casing: a lower-case letter becomes its capital, every other character is kept. */
  function UpperChar(c: char): (u: char)
    ensures !('a' <= u <= 'z')
    ensures 'a' <= c <= 'z' ==> 'A' <= u <= 'Z' && u as int == c as int - 32
    ensures !('a' <= c <= 'z') ==> u == c
  {
    if 'a' <= c <= 'z' then (c as int - 32) as char else c
  }

  /** ASCII lower-casing: a capital becomes its lower-case letter, every other character is kept. */
  function LowerChar(c: char): (l: char)
    ensures !('A' <= l <= 'Z')
    ensures 'A' <= c <= 'Z' ==> 'a' <= l <= 'z' && l as int == c as int + 32
    ensures !('A' <= c <= 'Z') ==> l == c
  {
    if 'A' <= c <= 'Z' then (c as int + 32) as char else c
  }

  /**
   * The two casings are inverse on letters and agree up to case: upper-casing
   * keeps the letter, and lower-casing an upper-cased letter gives it back.
   */
  lemma {:induction false} CasingsAgree(c: char)
    ensures LowerChar(UpperChar(c)) == LowerChar(c)
    ensures UpperChar(LowerChar(c)) == UpperChar(c)
    ensures 'a' <= c <= 'z' ==> LowerChar(UpperChar(c)) == c
    ensures 'A' <= c <= 'Z' ==> UpperChar(LowerChar(c)) == c
  {
  }

  /** `verb` occurs at position `i`; with `caseless`, ASCII letters match regardless of case. */
  predicate VerbIs(s: string, i: nat, caseless: bool, verb: string) {
    i + |verb| <= |s| &&
    forall k :: 0 <= k < |verb| ==> (if caseless then LowerChar(s[i + k]) else s[i + k]) == verb[k]
  }

  /** `(get|post|put|delete)` at position `i`: the alternative that matched, in lower case. */
  function VerbAt(s: string, i: nat, caseless: bool): (r: Option<string>)
    ensures r.Some? ==> r.value in HttpVerbs && VerbIs(s, i, caseless, r.value)
  {
    if VerbIs(s, i, caseless, "get") then Some("get")
    else if VerbIs(s, i, caseless, "post") then Some("post")
    else if VerbIs(s, i, caseless, "put") then Some("put")
    else if VerbIs(s, i, caseless, "delete") then Some("delete")
    else None
  }

  /**
   * The matched verb upper cased.  The matched text spells the verb up to
   * the case of its ASCII letters, so upper casing it gives the verb's
   * upper-case spelling.
   */
  function VerbName(v: string): (u: string)
    requires v in HttpVerbs
    ensures u in ["GET", "POST", "PUT", "DELETE"]
  {
    if v == "get" then "GET" else if v == "post" then "POST" else if v == "put" then "PUT" else "DELETE"
  }

  /** The verb's name is the matched verb with each letter upper cased. */
  lemma VerbNameUpperCases(v: string)
    requires v in HttpVerbs
    ensures |VerbName(v)| == |v| && forall k :: 0 <= k < |v| ==> VerbName(v)[k] == UpperChar(v[k])
  {
  }

  /** `:\s*"([^"]+)"` from position `p`: the quoted path after the verb. */
  function QuotedPath(s: string, p: nat): (r: Option<string>)
    requires p <= |s|
    ensures r.Some? ==> |r.value| >= 1
  {
    if !HasAt(s, p, ":") then None
    else
      var q := SkipSpaces(s, p + 1);
      if !HasAt(s, q, "\"") then None
      else
        var e := SkipNonQuote(s, q + 1);
        if e == q + 1 || e == |s| then None else Some(s[q + 1..e])
  }

  /**
   * `(get|post|put|delete):\s*"([^"]+)"` at position `i`: the verb, upper
   * cased, and the quoted path.
   */
  function RuleAt(s: string, i: nat, caseless: bool): (r: Option<HttpRule>)
    ensures r.Some? ==> r.value.verb in ["GET", "POST", "PUT", "DELETE"]
    ensures r.Some? ==> |r.value.path| >= 1
  {
    match VerbAt(s, i, caseless)
    case None => None
    case Some(v) =>
      match QuotedPath(s, i + |v|)
      case None => None
      case Some(path) => Some(HttpRule(VerbName(v), path))
  }

  /** The leftmost position at or after `i` where a rule matches, with that rule. */
  function SearchRuleFrom(s: string, i: nat, caseless: bool): (r: Option<HttpRule>)
    ensures r.Some? ==> r.value.verb in ["GET", "POST", "PUT", "DELETE"]
    ensures r.Some? ==> |r.value.path| >= 1
    decreases |s| - i
  {
    if i >= |s| then None
    else
      match RuleAt(s, i, caseless)
      case Some(rule) => Some(rule)
      case None => SearchRuleFrom(s, i + 1, caseless)
  }

  /** The first value `f` finds at positions `i` up to `n`, trying them in order. */
  ghost function FirstFound<T>(f: nat -> Option<T>, i: nat, n: nat): Option<T>
    decreases n - i
  {
    if i >= n then None
    else if f(i).Some? then f(i)
    else FirstFound(f, i + 1, n)
  }

  lemma {:induction false} FirstFoundMissesNothing<T>(f: nat -> Option<T>, i: nat, n: nat)
    requires FirstFound(f, i, n).None?
    ensures forall p :: i <= p < n ==> f(p).None?
    decreases n - i
  {
    if i < n {
      FirstFoundMissesNothing(f, i + 1, n);
    }
  }

  lemma {:induction false} FirstFoundIsLeftmost<T>(f: nat -> Option<T>, i: nat, n: nat) returns (p: nat)
    requires FirstFound(f, i, n).Some?
    ensures i <= p < n && f(p) == FirstFound(f, i, n)
    ensures forall q :: i <= q < p ==> f(q).None?
    decreases n - i
  {
    if f(i).Some? {
      p := i;
    } else {
      p := FirstFoundIsLeftmost(f, i + 1, n);
    }
  }

  /** The rule search tries the positions from `i` on in order. */
  lemma {:induction false} SearchRuleTriesInOrder(s: string, i: nat, caseless: bool)
    ensures SearchRuleFrom(s, i, caseless) == FirstFound((p: nat) => RuleAt(s, p, caseless), i, |s|)
    decreases |s| - i
  {
    if i < |s| {
      SearchRuleTriesInOrder(s, i + 1, caseless);
    }
  }

  /** The search finds nothing only when no position from `i` on starts a rule. */
  lemma SearchRuleMissesNothing(s: string, i: nat, caseless: bool)
    requires SearchRuleFrom(s, i, caseless).None?
    ensures forall p :: i <= p < |s| ==> RuleAt(s, p, caseless).None?
  {
    var f := (p: nat) => RuleAt(s, p, caseless);
    SearchRuleTriesInOrder(s, i, caseless);
    FirstFoundMissesNothing(f, i, |s|);
    forall p | i <= p < |s|
      ensures RuleAt(s, p, caseless).None?
    {
      assert f(p).None?;
    }
  }

  /** A rule the search finds is the rule at the leftmost position from `i` on that starts one. */
  lemma SearchRuleIsLeftmost(s: string, i: nat, caseless: bool)
    requires SearchRuleFrom(s, i, caseless).Some?
    ensures exists p ::
      && i <= p < |s|
      && RuleAt(s, p, caseless) == SearchRuleFrom(s, i, caseless)
      && forall q :: i <= q < p ==> RuleAt(s, q, caseless).None?
  {
    var f := (p: nat) => RuleAt(s, p, caseless);
    SearchRuleTriesInOrder(s, i, caseless);
    var p := FirstFoundIsLeftmost(f, i, |s|);
    forall q | i <= q < p
      ensures RuleAt(s, q, caseless).None?
    {
      assert f(q).None?;
    }
    assert RuleAt(s, p, caseless) == f(p);
  }

  /** `{(\w+)}` at position `p`. */
  predicate ParamAt(s: string, p: nat) {
    p < |s| && s[p] == '{' &&
    match WordEnd(s, p + 1)
    case Some(e) => e < |s| && s[e] == '}'
    case None => false
  }

  /** `re.search(r'{(\w+)}', s)` and `s.match(/{(\w+)}/)` from position `k`: the leftmost parameter name. */
  function SearchParamFrom(s: string, k: nat): (r: Option<string>)
    ensures r.Some? ==> IsWord(r.value) && '}' in s
    decreases |s| - k
  {
    if k >= |s| then None
    else if ParamAt(s, k) then Some(s[k + 1..WordEnd(s, k + 1).value])
    else SearchParamFrom(s, k + 1)
  }

  function SearchParam(path: string): (r: Option<string>)
    ensures r.Some? ==> IsWord(r.value) && '}' in path
  {
    SearchParamFrom(path, 0)
  }

  /** The name of the `{word}` at position `p`, if one starts there. */
  function ParamNameAt(s: string, p: nat): (r: Option<string>)
    ensures r.Some? <==> ParamAt(s, p)
  {
    if ParamAt(s, p) then Some(s[p + 1..WordEnd(s, p + 1).value]) else None
  }

  /** The parameter search tries the positions from `k` on in order. */
  lemma {:induction false} SearchParamTriesInOrder(s: string, k: nat)
    ensures SearchParamFrom(s, k) == FirstFound((p: nat) => ParamNameAt(s, p), k, |s|)
    decreases |s| - k
  {
    if k < |s| {
      SearchParamTriesInOrder(s, k + 1);
    }
  }

  /** The search from `k` finds nothing only when no position from `k` on starts a `{word}`. */
  lemma SearchParamMissesNothing(s: string, k: nat)
    requires SearchParamFrom(s, k).None?
    ensures forall p :: k <= p < |s| ==> !ParamAt(s, p)
  {
    var f := (p: nat) => ParamNameAt(s, p);
    SearchParamTriesInOrder(s, k);
    FirstFoundMissesNothing(f, k, |s|);
    forall p | k <= p < |s|
      ensures !ParamAt(s, p)
    {
      assert f(p).None?;
    }
  }

  /** A name the search from `k` finds is the word of the leftmost `{word}` from `k` on. */
  lemma SearchParamIsLeftmost(s: string, k: nat)
    requires SearchParamFrom(s, k).Some?
    ensures exists p ::
      && k <= p < |s|
      && ParamAt(s, p)
      && SearchParamFrom(s, k).value == s[p + 1..WordEnd(s, p + 1).value]
      && forall q :: k <= q < p ==> !ParamAt(s, q)
  {
    var f := (p: nat) => ParamNameAt(s, p);
    SearchParamTriesInOrder(s, k);
    var p := FirstFoundIsLeftmost(f, k, |s|);
    forall q | k <= q < p
      ensures !ParamAt(s, q)
    {
      assert f(q).None?;
    }
    assert ParamNameAt(s, p) == f(p);
  }

  /** The parameter of a path is the word of its first `{word}`, and there is none when it has no `{word}`. */
  lemma SearchParamIsFirst(path: string)
    ensures SearchParam(path).None? ==> forall p :: 0 <= p < |path| ==> !ParamAt(path, p)
    ensures SearchParam(path).Some? ==> exists p ::
      && 0 <= p < |path|
      && ParamAt(path, p)
      && SearchParam(path).value == path[p + 1..WordEnd(path, p + 1).value]
      && forall q :: 0 <= q < p ==> !ParamAt(path, q)
  {
    if SearchParam(path).None? {
      SearchParamMissesNothing(path, 0);
    } else {
      SearchParamIsLeftmost(path, 0);
    }
  }

  /** `lines.index(line)` and `lines.indexOf(line)`: the first position holding that exact text. */
  function FirstIndex(lines: seq<string>, line: string): (k: nat)
    requires line in lines
    ensures k < |lines| && lines[k] == line
  {
    if lines[0] == line then 0
    else
      assert line in lines[1..] by {
        var j :| 0 <= j < |lines| && lines[j] == line;
        assert lines[1..][j - 1] == line;
      }
      1 + FirstIndex(lines[1..], line)
  }

  /** No line before `FirstIndex(lines, line)` holds the text `line`. */
  lemma {:induction false} FirstIndexIsFirst(lines: seq<string>, line: string, j: nat)
    requires line in lines && j < FirstIndex(lines, line)
    ensures lines[j] != line
  {
    if j > 0 {
      assert line in lines[1..] by {
        var x :| 0 <= x < |lines| && lines[x] == line;
        assert lines[1..][x - 1] == line;
      }
      FirstIndexIsFirst(lines[1..], line, j - 1);
    }
  }

  /** A line whose text occurs at an earlier position `j` is looked up at `j` or before. */
  lemma {:induction false} RepeatedLineIndex(lines: seq<string>, j: nat, i: nat)
    requires j < i < |lines| && lines[j] == lines[i]
    ensures FirstIndex(lines, lines[i]) == FirstIndex(lines, lines[j]) <= j
  {
    if FirstIndex(lines, lines[i]) > j {
      FirstIndexIsFirst(lines, lines[i], j);
    }
  }

  /** A method as an rpc line creates it: POST, an empty path and no parameter. */
  function DefaultMethod(h: RpcHeader): RpcMethod {
    RpcMethod(h.name, h.requestType, h.responseType, "POST", "", None)
  }

  function HeaderOf(m: RpcMethod): RpcHeader {
    RpcHeader(m.name, m.requestType, m.responseType)
  }

  /** Records the verb and path of a rule, and the path's first `{name}`, if any, as the parameter. */
  function ApplyRule(m: RpcMethod, rule: HttpRule): (r: RpcMethod)
    ensures HeaderOf(r) == HeaderOf(m) && r.httpMethod == rule.verb && r.path == rule.path
    ensures r.param == (if SearchParam(rule.path).Some? then SearchParam(rule.path) else m.param)
  {
    var updated := m.(httpMethod := rule.verb, path := rule.path);
    match SearchParam(rule.path)
    case Some(p) => updated.(param := Some(p))
    case None => updated
  }

  /** Appends a new service, which becomes the current one. */
  function AddService(services: seq<Service>, name: string): seq<Service> {
    services + [Service(name, [])]
  }

  function Last(services: seq<Service>): Service
    requires services != []
  {
    services[|services| - 1]
  }

  /** Appends a method to the current (last) service. */
  function AddMethod(services: seq<Service>, m: RpcMethod): (r: seq<Service>)
    requires services != []
    ensures |r| == |services| && r[..|r| - 1] == services[..|services| - 1]
    ensures Last(r) == Service(Last(services).name, Last(services).methods + [m])
  {
    services[..|services| - 1] + [Service(Last(services).name, Last(services).methods + [m])]
  }

  predicate HasCurrentMethod(services: seq<Service>) {
    services != [] && Last(services).methods != []
  }

  function LastMethod(services: seq<Service>): RpcMethod
    requires HasCurrentMethod(services)
  {
    var ms := Last(services).methods;
    ms[|ms| - 1]
  }

  /** Replaces the last method of the current service. */
  function ReplaceLastMethod(services: seq<Service>, m: RpcMethod): (r: seq<Service>)
    requires HasCurrentMethod(services)
    ensures |r| == |services| && r[..|r| - 1] == services[..|services| - 1]
    ensures Last(r).name == Last(services).name
    ensures |Last(r).methods| == |Last(services).methods|
    ensures Last(r).methods == Last(services).methods[..|Last(services).methods| - 1] + [m]
  {
    var ms := Last(services).methods;
    services[..|services| - 1] + [Service(Last(services).name, ms[..|ms| - 1] + [m])]
  }

  /** A service line appends a new, empty, current service. */
  function AfterServiceCheck(services: seq<Service>, line: string): seq<Service> {
    match MatchService(line)
    case Some(name) => AddService(services, name)
    case None => services
  }

  /** An rpc line appends a default method to the current service, if there is one. */
  function AfterRpcCheck(services: seq<Service>, line: string): seq<Service> {
    match MatchRpc(line)
    case Some(h) => if services != [] then AddMethod(services, DefaultMethod(h)) else services
    case None => services
  }

  /** The service check of one line, as both readers make it. */
  method CheckService(services: seq<Service>, line: string) returns (r: seq<Service>)
    ensures r == AfterServiceCheck(services, line)
  {
    r := services;
    var serviceMatch := MatchService(line);
    if serviceMatch.Some? {
      r := AddService(r, serviceMatch.value);
    }
  }

  /** The rpc check of one line, as both readers make it. */
  method CheckRpc(services: seq<Service>, line: string) returns (r: seq<Service>)
    ensures r == AfterRpcCheck(services, line)
  {
    r := services;
    var rpcMatch := MatchRpc(line);
    if rpcMatch.Some? && r != [] {
      r := AddMethod(r, DefaultMethod(rpcMatch.value));
    }
  }

  /** The names of the services, in order. */
  function ServiceNames(services: seq<Service>): seq<string> {
    if services == [] then [] else ServiceNames(services[..|services| - 1]) + [Last(services).name]
  }

  function Headers(ms: seq<RpcMethod>): seq<RpcHeader> {
    if ms == [] then [] else Headers(ms[..|ms| - 1]) + [HeaderOf(ms[|ms| - 1])]
  }

  /** The headers of every method of every service, services in order. */
  function AllHeaders(services: seq<Service>): seq<RpcHeader> {
    if services == [] then [] else AllHeaders(services[..|services| - 1]) + Headers(Last(services).methods)
  }

  /** The name a line opens a service with, if it does. */
  function ServiceNameOf(line: string): seq<string> {
    match MatchService(line) case Some(n) => [n] case None => []
  }

  /** The header of the rpc a line opens, if it does. */
  function RpcHeaderOf(line: string): seq<RpcHeader> {
    match MatchRpc(line) case Some(h) => [h] case None => []
  }

  /** The names of the lines that open a service, in file order. */
  function ServiceLineNames(lines: seq<string>): seq<string> {
    if lines == [] then [] else ServiceLineNames(lines[..|lines| - 1]) + ServiceNameOf(lines[|lines| - 1])
  }

  /** The headers of the rpc lines that come once some service line has been seen, in file order. */
  function RpcLineHeaders(lines: seq<string>): seq<RpcHeader> {
    if lines == [] then []
    else
      RpcLineHeaders(lines[..|lines| - 1]) +
      (if ServiceLineNames(lines) != [] then RpcHeaderOf(lines[|lines| - 1]) else [])
  }

  lemma {:induction false} AddServiceKeepsOrder(services: seq<Service>, name: string)
    ensures ServiceNames(AddService(services, name)) == ServiceNames(services) + [name]
    ensures AllHeaders(AddService(services, name)) == AllHeaders(services)
  {
    var r := AddService(services, name);
    assert r[..|r| - 1] == services;
  }

  lemma {:induction false} AddMethodKeepsOrder(services: seq<Service>, m: RpcMethod)
    requires services != []
    ensures ServiceNames(AddMethod(services, m)) == ServiceNames(services)
    ensures AllHeaders(AddMethod(services, m)) == AllHeaders(services) + [HeaderOf(m)]
  {
    var r := AddMethod(services, m);
    var ms := Last(services).methods + [m];
    assert ms[..|ms| - 1] == Last(services).methods;
  }

  lemma {:induction false} ReplaceLastMethodKeepsOrder(services: seq<Service>, m: RpcMethod)
    requires HasCurrentMethod(services) && HeaderOf(m) == HeaderOf(LastMethod(services))
    ensures ServiceNames(ReplaceLastMethod(services, m)) == ServiceNames(services)
    ensures AllHeaders(ReplaceLastMethod(services, m)) == AllHeaders(services)
  {
    var r := ReplaceLastMethod(services, m);
    var old_ms := Last(services).methods;
    var new_ms := Last(r).methods;
    assert new_ms[..|new_ms| - 1] == old_ms[..|old_ms| - 1];
    assert Headers(new_ms) == Headers(old_ms);
  }

  /** `ok` holds of every method in `ms`. */
  predicate AllMethods(ms: seq<RpcMethod>, ok: RpcMethod -> bool) {
    ms == [] || (AllMethods(ms[..|ms| - 1], ok) && ok(ms[|ms| - 1]))
  }

  /** `ok` holds of every method of every service. */
  predicate Every(services: seq<Service>, ok: RpcMethod -> bool) {
    services == [] || (Every(services[..|services| - 1], ok) && AllMethods(Last(services).methods, ok))
  }

  lemma {:induction false} AllMethodsAt(ms: seq<RpcMethod>, ok: RpcMethod -> bool, j: nat)
    requires AllMethods(ms, ok) && j < |ms|
    ensures ok(ms[j])
    decreases |ms|
  {
    if j < |ms| - 1 {
      AllMethodsAt(ms[..|ms| - 1], ok, j);
    }
  }

  /** What `Every` means: `ok` holds at each service index and each method index. */
  lemma {:induction false} EveryAt(services: seq<Service>, ok: RpcMethod -> bool)
    requires Every(services, ok)
    ensures forall i, j :: 0 <= i < |services| && 0 <= j < |services[i].methods| ==> ok(services[i].methods[j])
    decreases |services|
  {
    if services != [] {
      var front := services[..|services| - 1];
      EveryAt(front, ok);
      forall i, j | 0 <= i < |services| && 0 <= j < |services[i].methods|
        ensures ok(services[i].methods[j])
      {
        if i < |services| - 1 {
          assert services[i] == front[i];
        } else {
          AllMethodsAt(Last(services).methods, ok, j);
        }
      }
    }
  }

  /** A method has one of the four verbs, and its parameter, if any, is a word. */
  predicate WellFormedMethod(m: RpcMethod) {
    m.httpMethod in ["GET", "POST", "PUT", "DELETE"] && (m.param.Some? ==> IsWord(m.param.value))
  }

  lemma {:induction false} EveryAfterAddService(services: seq<Service>, name: string, ok: RpcMethod -> bool)
    requires Every(services, ok)
    ensures Every(AddService(services, name), ok)
  {
    var r := AddService(services, name);
    assert r[..|r| - 1] == services;
  }

  lemma {:induction false} EveryAfterAddMethod(services: seq<Service>, m: RpcMethod, ok: RpcMethod -> bool)
    requires services != [] && Every(services, ok) && ok(m)
    ensures Every(AddMethod(services, m), ok)
  {
    var ms := Last(services).methods + [m];
    assert ms[..|ms| - 1] == Last(services).methods;
  }

  lemma {:induction false} EveryAfterReplaceLastMethod(services: seq<Service>, m: RpcMethod, ok: RpcMethod -> bool)
    requires HasCurrentMethod(services) && Every(services, ok) && ok(m)
    ensures Every(ReplaceLastMethod(services, m), ok)
  {
    var old_ms := Last(services).methods;
    var ms := old_ms[..|old_ms| - 1] + [m];
    assert ms[..|ms| - 1] == old_ms[..|old_ms| - 1];
  }

  lemma {:induction false} EveryGivesLastMethod(services: seq<Service>, ok: RpcMethod -> bool)
    requires HasCurrentMethod(services) && Every(services, ok)
    ensures ok(LastMethod(services))
  {
  }

  /** The reference lists over a prefix grow by what the prefix's last line contributes. */
  lemma {:induction false} ReferenceStep(lines: seq<string>, n: nat)
    requires 0 < n <= |lines|
    ensures ServiceLineNames(lines[..n]) == ServiceLineNames(lines[..n - 1]) + ServiceNameOf(lines[n - 1])
    ensures RpcLineHeaders(lines[..n]) == RpcLineHeaders(lines[..n - 1]) +
      (if ServiceLineNames(lines[..n]) != [] then RpcHeaderOf(lines[n - 1]) else [])
  {
    assert lines[..n][..n - 1] == lines[..n - 1];
  }

  /** The service check and the rpc check of one line append its service name and, under a service, its rpc header. */
  lemma {:induction false} ChecksKeepOrder(services: seq<Service>, line: string)
    ensures ServiceNames(AfterRpcCheck(AfterServiceCheck(services, line), line)) ==
      ServiceNames(services) + ServiceNameOf(line)
    ensures AllHeaders(AfterRpcCheck(AfterServiceCheck(services, line), line)) ==
      AllHeaders(services) + (if services != [] || MatchService(line).Some? then RpcHeaderOf(line) else [])
  {
    LineKindsAreExclusive(line);
    if MatchService(line).Some? {
      AddServiceKeepsOrder(services, MatchService(line).value);
    } else if MatchRpc(line).Some? && services != [] {
      AddMethodKeepsOrder(services, DefaultMethod(MatchRpc(line).value));
    }
  }

  /** The service check and the rpc check of one line keep a property every default method has. */
  lemma {:induction false} ChecksKeepEvery(services: seq<Service>, line: string, ok: RpcMethod -> bool)
    requires Every(services, ok)
    requires MatchRpc(line).Some? ==> ok(DefaultMethod(MatchRpc(line).value))
    ensures Every(AfterRpcCheck(AfterServiceCheck(services, line), line), ok)
  {
    var afterService := AfterServiceCheck(services, line);
    if MatchService(line).Some? {
      EveryAfterAddService(services, MatchService(line).value, ok);
    }
    if MatchRpc(line).Some? && afterService != [] {
      EveryAfterAddMethod(afterService, DefaultMethod(MatchRpc(line).value), ok);
    }
  }

  lemma {:induction false} ServiceNamesLength(services: seq<Service>)
    ensures |ServiceNames(services)| == |services|
    decreases |services|
  {
    if services != [] {
      ServiceNamesLength(services[..|services| - 1]);
    }
  }

  /** Two keywords that differ in their first letter cannot both start at the same position. */
  lemma {:induction false} KeywordsDiffer(line: string, a: nat, k1: string, k2: string)
    requires |k1| >= 1 && |k2| >= 1 && k1[0] != k2[0]
    requires HasAt(line, a, k1)
    ensures !HasAt(line, a, k2)
  {
    assert line[a..a + |k1|][0] == line[a];
  }

  /** A line opens at most one of a service, an rpc and an option block: they differ in their first word. */
  lemma {:induction false} LineKindsAreExclusive(line: string)
    ensures MatchService(line).Some? ==> MatchRpc(line).None? && !MatchesHttpOption(line)
    ensures MatchRpc(line).Some? ==> !MatchesHttpOption(line)
  {
    var a := SkipSpaces(line, 0);
    if MatchService(line).Some? {
      KeywordsDiffer(line, a, "service", "rpc");
      KeywordsDiffer(line, a, "service", "option");
    }
    if MatchRpc(line).Some? {
      KeywordsDiffer(line, a, "rpc", "option");
    }
  }
}

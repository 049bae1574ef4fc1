/**
 * Lines written in the usual layout are recognised by the line patterns,
 * with the names they spell; lines that start with another word are not.
 */
module ProtoLineShapes {
  import opened Wrappers
  import opened ProtoPatterns

  lemma {:induction false} SkipSpacesOver(s: string, i: nat, j: nat)
    requires i <= j <= |s|
    requires forall k :: i <= k < j ==> IsSpace(s[k])
    requires j == |s| || !IsSpace(s[j])
    ensures SkipSpaces(s, i) == j
    decreases j - i
  {
    if i < j {
      SkipSpacesOver(s, i + 1, j);
    }
  }

  lemma {:induction false} SkipWordOver(s: string, i: nat, j: nat)
    requires i <= j <= |s|
    requires forall k :: i <= k < j ==> IsWordChar(s[k])
    requires j == |s| || !IsWordChar(s[j])
    ensures SkipWord(s, i) == j
    decreases j - i
  {
    if i < j {
      SkipWordOver(s, i + 1, j);
    }
  }

  lemma {:induction false} SkipNonQuoteOver(s: string, i: nat, j: nat)
    requires i <= j < |s|
    requires forall k :: i <= k < j ==> s[k] != '"'
    requires s[j] == '"'
    ensures SkipNonQuote(s, i) == j
    decreases j - i
  {
    if i < j {
      SkipNonQuoteOver(s, i + 1, j);
    }
  }

  /** Leading white space before a line's first word is skipped up to that word. */
  lemma {:induction false} SkipIndent(line: string, a: nat)
    requires a < |line| && AllSpace(line[..a]) && !IsSpace(line[a])
    ensures SkipSpaces(line, 0) == a
  {
    assert forall k :: 0 <= k < a ==> line[k] == line[..a][k];
    SkipSpacesOver(line, 0, a);
  }

  /** A word followed by a character that cannot continue it is read whole. */
  lemma {:induction false} WordAt(s: string, i: nat, word: string)
    requires i + |word| <= |s| && s[i..i + |word|] == word && IsWord(word)
    requires i + |word| == |s| || !IsWordChar(s[i + |word|])
    ensures WordEnd(s, i) == Some(i + |word|)
  {
    forall k | i <= k < i + |word|
      ensures IsWordChar(s[k])
    {
      assert s[k] == s[i..i + |word|][k - i];
    }
    SkipWordOver(s, i, i + |word|);
  }

  /** A line whose character at `i` differs from the literal's first character does not hold it there. */
  lemma {:induction false} NotAt(s: string, i: nat, lit: string)
    requires i < |s| && |lit| > 0 && s[i] != lit[0]
    ensures !HasAt(s, i, lit)
  {
  }

  /** A character at position `i` of a line is found there. */
  lemma {:induction false} CharAt(s: string, i: nat, c: char)
    requires i < |s| && s[i] == c
    ensures HasAt(s, i, [c])
  {
    assert s[i..i + 1] == [c];
  }

  function ServiceLine(indent: string, name: string): string {
    indent + "service " + name + " {"
  }

  lemma {:induction false} ServiceLineChars(indent: string, name: string)
    requires |name| > 0
    ensures var line, a, c := ServiceLine(indent, name), |indent|, |indent| + 8 + |name|;
      |line| == c + 2 && line[..a] == indent && line[a..a + 7] == "service" && line[a + 7] == ' ' &&
      line[a + 8] == name[0] && line[a + 8..c] == name && line[c] == ' ' && line[c + 1] == '{'
  {
  }

  /** `indent + "service " + name + " {"` opens the service `name`. */
  lemma {:induction false} ServiceLineRecognised(indent: string, name: string)
    requires AllSpace(indent) && IsWord(name)
    ensures MatchService(ServiceLine(indent, name)) == Some(name)
  {
    var line := ServiceLine(indent, name);
    var a, c := |indent|, |indent| + 8 + |name|;
    ServiceLineChars(indent, name);
    SkipIndent(line, a);
    SkipSpacesOver(line, a + 7, a + 8);
    WordAt(line, a + 8, name);
    SkipSpacesOver(line, c, c + 1);
    CharAt(line, c + 1, '{');
  }

  function RpcLine(indent: string, name: string, req: string, resp: string): string {
    indent + "rpc " + name + "(" + req + ") returns (" + resp + ") {"
  }

  lemma {:induction false} RpcLineHead(indent: string, name: string, req: string, resp: string)
    requires |name| > 0
    ensures var line, a, c := RpcLine(indent, name, req, resp), |indent|, |indent| + 4 + |name|;
      |line| == c + |req| + |resp| + 15 && line[..a] == indent && line[a..a + 3] == "rpc" &&
      line[a + 3] == ' ' && line[a + 4] == name[0] && line[a + 4..c] == name && line[c] == '('
  {
  }

  /** The text `req) returns (resp) {` written from position `i` of `line`. */
  predicate TypesText(line: string, i: nat, req: string, resp: string) {
    var e := i + |req|;
    e < |line| && line[i..e] == req && line[e] == ')' && ReturnsText(line, e + 1, resp)
  }

  /** ` returns (resp) {` at position `j`. */
  predicate ReturnsText(line: string, j: nat, resp: string) {
    var h := j + 10 + |resp|;
    |line| >= h + 3 && line[j] == ' ' && line[j + 1..j + 8] == "returns" && line[j + 8] == ' ' &&
    line[j + 9] == '(' && line[j + 10..h] == resp && line[h] == ')' && line[h + 1] == ' ' && line[h + 2] == '{'
  }

  lemma {:induction false} RpcLineTail(indent: string, name: string, req: string, resp: string)
    ensures TypesText(RpcLine(indent, name, req, resp), |indent| + 5 + |name|, req, resp)
  {
    var i := |indent| + 5 + |name|;
    var line, e := RpcLine(indent, name, req, resp), i + |req|;
    var tail := ") returns (" + resp + ") {";
    assert line == (indent + "rpc " + name + "(") + req + tail;
    assert line[i..e] == req;
    assert line[e..] == tail;
    ReturnsTail(line, e, resp);
  }

  /** A line whose rest from `e` is `) returns (resp) {`. */
  lemma {:induction false} ReturnsTail(line: string, e: nat, resp: string)
    requires e <= |line| && line[e..] == ") returns (" + resp + ") {"
    ensures e < |line| && line[e] == ')' && ReturnsText(line, e + 1, resp)
  {
    var head := ") returns (";
    var named := head + resp;
    var rest := line[e..];
    assert rest == named + ") {";
    assert rest[2..9] == head[2..9] == "returns";
    forall k | 0 <= k < |resp| ensures rest[11 + k] == resp[k] {
      assert rest[11 + k] == named[11 + k];
    }
    assert rest[11..11 + |resp|] == resp;
    assert line[e + 2..e + 9] == rest[2..9];
    assert line[e + 11..e + 11 + |resp|] == rest[11..11 + |resp|];
  }

  /** `(w) {` from position `g` is read as the word `w`. */
  lemma {:induction false} ParenWordRecognised(line: string, g: nat, w: string)
    requires IsWord(w)
    requires var h := g + 1 + |w|;
      |line| >= h + 3 && line[g] == '(' && line[g + 1..h] == w && line[h] == ')' &&
      line[h + 1] == ' ' && line[h + 2] == '{'
    ensures ParenWord(line, g) == Some(w)
  {
    var h := g + 1 + |w|;
    CharAt(line, g, '(');
    WordAt(line, g + 1, w);
    CharAt(line, h, ')');
    SkipSpacesOver(line, h + 1, h + 2);
    CharAt(line, h + 2, '{');
  }

  /** ` returns (resp) {` from position `j` is read as the response type `resp`. */
  lemma {:induction false} ReturnsClauseRecognised(line: string, j: nat, resp: string)
    requires IsWord(resp) && ReturnsText(line, j, resp)
    ensures ReturnsClause(line, j) == Some(resp)
  {
    assert line[j + 1] == line[j + 1..j + 8][0];
    SkipSpacesOver(line, j, j + 1);
    SkipSpacesOver(line, j + 8, j + 9);
    ParenWordRecognised(line, j + 9, resp);
  }

  /** `req) returns (resp) {` from position `i` is read as the two types. */
  lemma {:induction false} RpcTypesRecognised(line: string, i: nat, req: string, resp: string)
    requires IsWord(req) && i + |req| < |line| && line[i..i + |req|] == req && line[i + |req|] == ')'
    requires ReturnsClause(line, i + |req| + 1) == Some(resp)
    ensures RpcTypes(line, i) == Some((req, resp))
  {
    WordAt(line, i, req);
    CharAt(line, i + |req|, ')');
    RpcTypesFrom(line, i, resp);
  }

  lemma {:induction false} RpcTypesFrom(line: string, i: nat, resp: string)
    requires i <= |line| && WordEnd(line, i).Some?
    requires HasAt(line, WordEnd(line, i).value, ")") && ReturnsClause(line, WordEnd(line, i).value + 1) == Some(resp)
    ensures RpcTypes(line, i) == Some((line[i..WordEnd(line, i).value], resp))
  {
  }

  /** `(req) returns (resp) {` from position `c`, just after the rpc's name. */
  lemma {:induction false} RpcAfterNameRecognised(line: string, c: nat, req: string, resp: string)
    requires IsWord(req) && IsWord(resp)
    requires c < |line| && line[c] == '(' && TypesText(line, c + 1, req, resp)
    ensures RpcAfterName(line, c) == Some((req, resp))
  {
    ReturnsClauseRecognised(line, c + 2 + |req|, resp);
    RpcTypesRecognised(line, c + 1, req, resp);
    SkipSpacesOver(line, c, c);
    CharAt(line, c, '(');
  }

  /** ` name` followed by the types from position `j`, just after `rpc`. */
  lemma {:induction false} RpcAfterKeywordRecognised(line: string, j: nat, c: nat, name: string, req: string, resp: string)
    requires IsWord(name) && c == j + 1 + |name|
    requires c < |line| && line[j] == ' ' && line[j + 1..c] == name && line[c] == '('
    requires RpcAfterName(line, c) == Some((req, resp))
    ensures RpcAfterKeyword(line, j) == Some(RpcHeader(name, req, resp))
  {
    assert line[j + 1] == line[j + 1..c][0];
    SkipSpacesOver(line, j, j + 1);
    WordAt(line, j + 1, name);
  }

  /** `indent + "rpc " + name + "(" + req + ") returns (" + resp + ") {"` opens the rpc `name`. */
  lemma {:induction false} RpcLineRecognised(indent: string, name: string, req: string, resp: string)
    requires AllSpace(indent) && IsWord(name) && IsWord(req) && IsWord(resp)
    ensures MatchRpc(RpcLine(indent, name, req, resp)) == Some(RpcHeader(name, req, resp))
  {
    RpcLineHead(indent, name, req, resp);
    RpcLineTail(indent, name, req, resp);
    RpcTextRecognised(RpcLine(indent, name, req, resp), |indent|, |indent| + 4 + |name|, name, req, resp);
  }

  /** White space, `rpc name(` and the types text, read as the rpc `name`. */
  lemma {:induction false} RpcTextRecognised(line: string, a: nat, c: nat, name: string, req: string, resp: string)
    requires IsWord(name) && IsWord(req) && IsWord(resp) && c == a + 4 + |name|
    requires c < |line| && AllSpace(line[..a]) && line[a..a + 3] == "rpc" && line[a + 3] == ' '
    requires line[a + 4..c] == name && line[c] == '(' && TypesText(line, c + 1, req, resp)
    ensures MatchRpc(line) == Some(RpcHeader(name, req, resp))
  {
    RpcAfterNameRecognised(line, c, req, resp);
    RpcAfterKeywordRecognised(line, a + 3, c, name, req, resp);
    assert line[a] == line[a..a + 3][0];
    SkipIndent(line, a);
  }

  function OptionLine(indent: string): string {
    indent + "option (google.api.http) = {"
  }

  lemma {:induction false} OptionLineChars(indent: string)
    ensures var line, a := OptionLine(indent), |indent|;
      |line| == a + 28 && line[..a] == indent && line[a..a + 6] == "option" && line[a + 6] == ' ' &&
      line[a + 7..a + 24] == "(google.api.http)" && line[a + 24] == ' ' && line[a + 25] == '=' &&
      line[a + 26] == ' ' && line[a + 27] == '{'
  {
    OptionLineHead(indent);
    OptionLineTail(indent);
  }

  lemma {:induction false} OptionLineHead(indent: string)
    ensures var line, a := OptionLine(indent), |indent|;
      |line| == a + 28 && line[..a] == indent && line[a..a + 6] == "option" && line[a + 6] == ' '
  {
    var line, a := OptionLine(indent), |indent|;
    var tail := "option (google.api.http) = {";
    assert line[..a] == indent && line[a..] == tail;
    assert tail[..6] == "option";
    assert line[a..a + 6] == tail[..6];
  }

  lemma {:induction false} OptionLineTail(indent: string)
    ensures var line, a := OptionLine(indent), |indent|;
      |line| == a + 28 && line[a + 7..a + 24] == "(google.api.http)" && line[a + 24] == ' ' &&
      line[a + 25] == '=' && line[a + 26] == ' ' && line[a + 27] == '{'
  {
    var line, a := OptionLine(indent), |indent|;
    var tail := "option (google.api.http) = {";
    assert line[a..] == tail;
    assert tail[7..24] == "(google.api.http)";
    assert line[a + 7..a + 24] == tail[7..24];
  }

  /** ` = {` from position `i`. */
  lemma {:induction false} AssignsBlockRecognised(line: string, i: nat)
    requires i + 4 <= |line| && line[i] == ' ' && line[i + 1] == '=' && line[i + 2] == ' ' && line[i + 3] == '{'
    ensures AssignsBlock(line, i)
  {
    SkipSpacesOver(line, i, i + 1);
    CharAt(line, i + 1, '=');
    SkipSpacesOver(line, i + 2, i + 3);
    CharAt(line, i + 3, '{');
  }

  /** ` (google.api.http) = {` from position `j`. */
  lemma {:induction false} HttpOptionAfterKeywordRecognised(line: string, j: nat)
    requires j + 22 <= |line| && line[j] == ' ' && line[j + 1..j + 18] == "(google.api.http)"
    requires AssignsBlock(line, j + 18)
    ensures HttpOptionAfterKeyword(line, j)
  {
    assert line[j + 1] == line[j + 1..j + 18][0];
    SkipSpacesOver(line, j, j + 1);
  }

  /** `indent + "option (google.api.http) = {"` opens an HTTP option block. */
  lemma {:induction false} OptionLineRecognised(indent: string)
    requires AllSpace(indent)
    ensures MatchesHttpOption(OptionLine(indent))
  {
    var line, a := OptionLine(indent), |indent|;
    OptionLineChars(indent);
    AssignsBlockRecognised(line, a + 24);
    HttpOptionAfterKeywordRecognised(line, a + 6);
    assert line[a] == line[a..a + 6][0];
    SkipIndent(line, a);
  }

  /** A line whose first word starts with none of `s`, `r` and `o` opens nothing. */
  lemma {:induction false} OtherLineIgnored(line: string, a: nat)
    requires a < |line| && AllSpace(line[..a]) && !IsSpace(line[a]) && line[a] !in "sro"
    ensures MatchService(line).None? && MatchRpc(line).None? && !MatchesHttpOption(line)
  {
    SkipIndent(line, a);
    NotAt(line, a, "service");
    NotAt(line, a, "rpc");
    NotAt(line, a, "option");
  }

  function RuleLine(indent: string, verb: string, path: string): string {
    indent + verb + ": \"" + path + "\""
  }

  lemma {:induction false} RuleLineChars(indent: string, verb: string, path: string)
    ensures var line, a := RuleLine(indent, verb, path), |indent|;
      var p := a + |verb|;
      var e := p + 3 + |path|;
      |line| == e + 1 && line[..a] == indent && line[a..p] == verb && line[p] == ':' &&
      line[p + 1] == ' ' && line[p + 2] == '"' && line[p + 3..e] == path && line[e] == '"'
  {
  }

  /** `: "path"` from position `p` is read as `path`. */
  lemma {:induction false} QuotedPathRecognised(line: string, p: nat, path: string)
    requires |path| >= 1 && '"' !in path
    requires var e := p + 3 + |path|;
      |line| == e + 1 && line[p] == ':' && line[p + 1] == ' ' && line[p + 2] == '"' &&
      line[p + 3..e] == path && line[e] == '"'
    ensures QuotedPath(line, p) == Some(path)
  {
    var e := p + 3 + |path|;
    CharAt(line, p, ':');
    SkipSpacesOver(line, p + 1, p + 2);
    CharAt(line, p + 2, '"');
    forall k | p + 3 <= k < e
      ensures line[k] != '"'
    {
      assert line[k] == line[p + 3..e][k - p - 3];
    }
    SkipNonQuoteOver(line, p + 3, e);
  }

  /** One differing character rules a verb out. */
  lemma {:induction false} VerbMismatch(s: string, i: nat, caseless: bool, verb: string, k: nat)
    requires k < |verb| && i + k < |s| && (if caseless then LowerChar(s[i + k]) else s[i + k]) != verb[k]
    ensures !VerbIs(s, i, caseless, verb)
  {
  }

  /** A character that starts none of the verbs starts no verb. */
  lemma {:induction false} NoVerbAt(s: string, i: nat, caseless: bool)
    requires i < |s| && (if caseless then LowerChar(s[i]) else s[i]) !in "gpd"
    ensures VerbAt(s, i, caseless).None?
  {
    VerbMismatch(s, i, caseless, "get", 0);
    VerbMismatch(s, i, caseless, "post", 0);
    VerbMismatch(s, i, caseless, "put", 0);
    VerbMismatch(s, i, caseless, "delete", 0);
  }

  /** A verb written in lower case at position `a` is read as that verb, with or without case folding. */
  lemma {:induction false} VerbRecognised(line: string, a: nat, verb: string, caseless: bool)
    requires verb in HttpVerbs && a + |verb| <= |line| && line[a..a + |verb|] == verb
    ensures VerbAt(line, a, caseless) == Some(verb)
  {
    forall k | 0 <= k < |verb|
      ensures (if caseless then LowerChar(line[a + k]) else line[a + k]) == verb[k]
    {
      assert line[a + k] == line[a..a + |verb|][k];
    }
    assert VerbIs(line, a, caseless, verb);
    if verb != "get" {
      VerbMismatch(line, a, caseless, "get", 0);
    }
    if verb == "put" {
      VerbMismatch(line, a, caseless, "post", 1);
    }
    if verb == "delete" {
      VerbMismatch(line, a, caseless, "post", 0);
      VerbMismatch(line, a, caseless, "put", 0);
    }
  }

  /** A verb and then a quoted path make a rule. */
  lemma {:induction false} RuleAtFrom(s: string, i: nat, caseless: bool, verb: string, path: string)
    requires VerbAt(s, i, caseless) == Some(verb) && i + |verb| <= |s| && QuotedPath(s, i + |verb|) == Some(path)
    ensures RuleAt(s, i, caseless) == Some(HttpRule(VerbName(verb), path))
  {
  }

  /** `verb: "path"` from position `a` is read as that verb, upper cased, and path. */
  lemma {:induction false} RuleTextRecognised(line: string, a: nat, verb: string, path: string, caseless: bool)
    requires verb in HttpVerbs && |path| >= 1 && '"' !in path
    requires var p := a + |verb|; var e := p + 3 + |path|;
      |line| == e + 1 && line[a..p] == verb && line[p] == ':' && line[p + 1] == ' ' &&
      line[p + 2] == '"' && line[p + 3..e] == path && line[e] == '"'
    ensures RuleAt(line, a, caseless) == Some(HttpRule(VerbName(verb), path))
  {
    VerbRecognised(line, a, verb, caseless);
    QuotedPathRecognised(line, a + |verb|, path);
    RuleAtFrom(line, a, caseless, verb, path);
  }

  /** `indent + verb + ": \"" + path + "\""` is read at the end of its indent as that verb, upper cased, and path. */
  lemma {:induction false} RuleLineRecognised(indent: string, verb: string, path: string, caseless: bool)
    requires verb in HttpVerbs && |path| >= 1 && '"' !in path
    ensures RuleAt(RuleLine(indent, verb, path), |indent|, caseless) == Some(HttpRule(VerbName(verb), path))
  {
    RuleLineChars(indent, verb, path);
    RuleTextRecognised(RuleLine(indent, verb, path), |indent|, verb, path, caseless);
  }

  /** No rule starts at a white-space character, so the search moves on. */
  lemma {:induction false} NoRuleAtSpace(s: string, i: nat, caseless: bool)
    requires i < |s| && IsSpace(s[i])
    ensures RuleAt(s, i, caseless).None?
    ensures SearchRuleFrom(s, i, caseless) == SearchRuleFrom(s, i + 1, caseless)
  {
    NoVerbAt(s, i, caseless);
  }

  /** The unanchored search passes over leading white space. */
  lemma {:induction false} SearchRuleSkipsSpaces(s: string, i: nat, caseless: bool)
    requires i <= |s|
    ensures SearchRuleFrom(s, i, caseless) == SearchRuleFrom(s, SkipSpaces(s, i), caseless)
    decreases |s| - i
  {
    if i < |s| && IsSpace(s[i]) {
      SearchRuleSkipsSpaces(s, i + 1, caseless);
      NoRuleAtSpace(s, i, caseless);
    }
  }

  /** The case-insensitive search finds the rule on an indented rule line. */
  lemma {:induction false} RuleLineFound(indent: string, verb: string, path: string)
    requires AllSpace(indent) && verb in HttpVerbs && |path| >= 1 && '"' !in path
    ensures SearchRuleFrom(RuleLine(indent, verb, path), 0, true) == Some(HttpRule(VerbName(verb), path))
  {
    var line, a := RuleLine(indent, verb, path), |indent|;
    RuleLineChars(indent, verb, path);
    assert line[a] == line[a..a + |verb|][0];
    SkipIndent(line, a);
    SearchRuleSkipsSpaces(line, 0, true);
    RuleLineRecognised(indent, verb, path, true);
  }

  /** A line where no letter could start a verb holds no rule. */
  lemma {:induction false} NoVerbLetterNoRule(s: string, i: nat, caseless: bool)
    requires i <= |s| && forall k :: i <= k < |s| ==> (if caseless then LowerChar(s[k]) else s[k]) !in "gpd"
    ensures SearchRuleFrom(s, i, caseless).None?
    decreases |s| - i
  {
    if i < |s| {
      NoVerbAt(s, i, caseless);
      NoVerbLetterNoRule(s, i + 1, caseless);
    }
  }
}

/**
 * A gateway `.proto` file with two rpcs, each with its own option block,
 * and what each parser makes of it.  The two option lines have the same
 * text, so a lookup by text finds the first block for both; the first
 * block's route names a parameter, so its rule line also holds `}`.
 * The indentation of each level is left open: the results hold for any.
 */
module ProtoSample {
  import opened Wrappers
  import opened ProtoPatterns
  import opened ProtoLineShapes
  import Py = PythonProtoParser
  import Js = NodeProtoParser

  const GetUser: RpcHeader := RpcHeader("GetUser", "UserRequest", "UserResponse")
  const CreateUser: RpcHeader := RpcHeader("CreateUser", "CreateUserRequest", "UserResponse")

  /** `lines` is the sample with the service, rpc, option and rule levels indented by `i0`, `i2`, `i4` and `i6`. */
  predicate IsSample(lines: seq<string>, i0: string, i2: string, i4: string, i6: string) {
    AllSpace(i0) && AllSpace(i2) && AllSpace(i4) && AllSpace(i6) &&
    |lines| == 13 &&
    lines[0] == ServiceLine(i0, "UserService") &&
    lines[1] == RpcLine(i2, "GetUser", "UserRequest", "UserResponse") &&
    lines[2] == OptionLine(i4) &&
    lines[3] == RuleLine(i6, "get", "/users/{id}") &&
    lines[4] == i4 + "};" &&
    lines[5] == i2 + "}" &&
    lines[6] == RpcLine(i2, "CreateUser", "CreateUserRequest", "UserResponse") &&
    lines[7] == OptionLine(i4) &&
    lines[8] == RuleLine(i6, "post", "/users") &&
    lines[9] == i6 + "body: \"*\"" &&
    lines[10] == i4 + "};" &&
    lines[11] == i2 + "}" &&
    lines[12] == i0 + "}"
  }

  /** The sample exists for every choice of indentation. */
  function Sample(i0: string, i2: string, i4: string, i6: string): (lines: seq<string>)
    requires AllSpace(i0) && AllSpace(i2) && AllSpace(i4) && AllSpace(i6)
    ensures IsSample(lines, i0, i2, i4, i6)
  {
    [ ServiceLine(i0, "UserService"),
      RpcLine(i2, "GetUser", "UserRequest", "UserResponse"),
      OptionLine(i4),
      RuleLine(i6, "get", "/users/{id}"),
      i4 + "};",
      i2 + "}",
      RpcLine(i2, "CreateUser", "CreateUserRequest", "UserResponse"),
      OptionLine(i4),
      RuleLine(i6, "post", "/users"),
      i6 + "body: \"*\"",
      i4 + "};",
      i2 + "}",
      i0 + "}" ]
  }

  /** Neither a service, an rpc nor an option line. */
  predicate Plain(line: string) {
    MatchService(line).None? && MatchRpc(line).None? && !MatchesHttpOption(line)
  }

  lemma {:induction false} ServiceLineKind(indent: string, name: string)
    requires AllSpace(indent) && IsWord(name)
    ensures var line := ServiceLine(indent, name);
      MatchService(line) == Some(name) && MatchRpc(line).None? && !MatchesHttpOption(line)
  {
    ServiceLineRecognised(indent, name);
    LineKindsAreExclusive(ServiceLine(indent, name));
  }

  lemma {:induction false} RpcLineKind(indent: string, name: string, req: string, resp: string)
    requires AllSpace(indent) && IsWord(name) && IsWord(req) && IsWord(resp)
    ensures var line := RpcLine(indent, name, req, resp);
      MatchRpc(line) == Some(RpcHeader(name, req, resp)) && MatchService(line).None? && !MatchesHttpOption(line)
  {
    RpcLineRecognised(indent, name, req, resp);
    LineKindsAreExclusive(RpcLine(indent, name, req, resp));
  }

  lemma {:induction false} OptionLineKind(indent: string)
    requires AllSpace(indent)
    ensures var line := OptionLine(indent);
      MatchesHttpOption(line) && MatchService(line).None? && MatchRpc(line).None?
  {
    OptionLineRecognised(indent);
    LineKindsAreExclusive(OptionLine(indent));
  }

  lemma {:induction false} IndentedPlain(indent: string, text: string)
    requires AllSpace(indent) && |text| > 0 && !IsSpace(text[0]) && text[0] !in "sro"
    ensures Plain(indent + text)
  {
    var line := indent + text;
    assert line[..|indent|] == indent;
    OtherLineIgnored(line, |indent|);
  }

  lemma {:induction false} RuleLinePlain(indent: string, verb: string, path: string)
    requires AllSpace(indent) && |verb| > 0 && verb[0] in "gpd"
    ensures Plain(RuleLine(indent, verb, path))
  {
    RuleLineChars(indent, verb, path);
    OtherLineIgnored(RuleLine(indent, verb, path), |indent|);
  }

  lemma {:induction false} NoBraceInSpace(s: string)
    requires AllSpace(s)
    ensures '}' !in s
  {
  }

  lemma {:induction false} SampleWords()
    ensures IsWord("UserService") && IsWord("GetUser") && IsWord("UserRequest") && IsWord("UserResponse")
    ensures IsWord("CreateUser") && IsWord("CreateUserRequest")
  {
  }

  /**
   * What the sample's lines are to the patterns both parsers use: this is
   * all the parse results below depend on.
   */
  predicate SampleShape(lines: seq<string>) {
    |lines| == 13 &&
    MatchService(lines[0]) == Some("UserService") && MatchRpc(lines[0]).None? && !MatchesHttpOption(lines[0]) &&
    MatchRpc(lines[1]) == Some(GetUser) && MatchService(lines[1]).None? && !MatchesHttpOption(lines[1]) &&
    MatchesHttpOption(lines[2]) && MatchService(lines[2]).None? && MatchRpc(lines[2]).None? &&
    MatchRpc(lines[6]) == Some(CreateUser) && MatchService(lines[6]).None? && !MatchesHttpOption(lines[6]) &&
    lines[7] == lines[2] &&
    Plain(lines[3]) && Plain(lines[4]) && Plain(lines[5]) && Plain(lines[8]) &&
    Plain(lines[9]) && Plain(lines[10]) && Plain(lines[11]) && Plain(lines[12]) &&
    '}' in lines[3] && '}' !in lines[8] && '}' !in lines[9] && '}' in lines[10] &&
    Js.MatchHttpRule(lines[3]) == Some(UserRoute) && Py.MatchHttpRule(lines[3]) == Some(UserRoute) &&
    Js.MatchHttpRule(lines[10]).None?
  }

  const UserRoute: HttpRule := HttpRule("GET", "/users/{id}")

  /** The two methods as the first block's rule describes them. */
  const GetUserRouted: RpcMethod := RpcMethod("GetUser", "UserRequest", "UserResponse", "GET", "/users/{id}", Some("id"))
  const CreateUserRouted: RpcMethod := RpcMethod("CreateUser", "CreateUserRequest", "UserResponse", "GET", "/users/{id}", Some("id"))

  /** The service, rpc and option lines of the sample. */
  lemma {:induction false} SampleHeaderLines(lines: seq<string>, i0: string, i2: string, i4: string, i6: string)
    requires IsSample(lines, i0, i2, i4, i6)
    ensures MatchService(lines[0]) == Some("UserService") && MatchRpc(lines[0]).None? && !MatchesHttpOption(lines[0])
    ensures MatchRpc(lines[1]) == Some(GetUser) && MatchService(lines[1]).None? && !MatchesHttpOption(lines[1])
    ensures MatchRpc(lines[6]) == Some(CreateUser) && MatchService(lines[6]).None? && !MatchesHttpOption(lines[6])
    ensures MatchesHttpOption(lines[2]) && MatchService(lines[2]).None? && MatchRpc(lines[2]).None?
  {
    SampleWords();
    ServiceLineKind(i0, "UserService");
    RpcLineKind(i2, "GetUser", "UserRequest", "UserResponse");
    RpcLineKind(i2, "CreateUser", "CreateUserRequest", "UserResponse");
    OptionLineKind(i4);
  }

  /** The other lines of the sample are none of the three. */
  lemma {:induction false} SamplePlainLines(lines: seq<string>, i0: string, i2: string, i4: string, i6: string)
    requires IsSample(lines, i0, i2, i4, i6)
    ensures Plain(lines[3]) && Plain(lines[4]) && Plain(lines[5]) && Plain(lines[8])
    ensures Plain(lines[9]) && Plain(lines[10]) && Plain(lines[11]) && Plain(lines[12])
  {
    RuleLinePlain(i6, "get", "/users/{id}");
    RuleLinePlain(i6, "post", "/users");
    IndentedPlain(i4, "};");
    IndentedPlain(i2, "}");
    IndentedPlain(i6, "body: \"*\"");
    IndentedPlain(i0, "}");
  }

  /** Which lines of the sample's blocks hold `}`. */
  lemma {:induction false} SampleBraces(lines: seq<string>, i0: string, i2: string, i4: string, i6: string)
    requires IsSample(lines, i0, i2, i4, i6)
    ensures '}' in lines[3] && '}' !in lines[8] && '}' !in lines[9] && '}' in lines[10]
  {
    NoBraceInSpace(i6);
  }

  /** The route of the first block and its parameter. */
  lemma {:induction false} GetRoute()
    ensures SearchParam("/users/{id}") == Some("id")
    ensures VerbName("get") == "GET"
  {
    var path := "/users/{id}";
    WordAt(path, 8, "id");
    assert ParamAt(path, 7);
    assert SearchParamFrom(path, 7) == Some("id");
    assert SearchParamFrom(path, 0) == SearchParamFrom(path, 7) by {
      assert forall k :: 0 <= k < 7 ==> path[k] != '{';
    }
  }

  /** The first block's rule line, as both parsers read it. */
  lemma {:induction false} SampleRouteLine(lines: seq<string>, i0: string, i2: string, i4: string, i6: string)
    requires IsSample(lines, i0, i2, i4, i6)
    ensures Js.MatchHttpRule(lines[3]) == Some(UserRoute)
    ensures Py.MatchHttpRule(lines[3]) == Some(UserRoute)
  {
    GetRoute();
    RuleLineFound(i6, "get", "/users/{id}");
    RuleLineChars(i6, "get", "/users/{id}");
    SkipIndent(lines[3], |i6|);
    RuleLineRecognised(i6, "get", "/users/{id}", false);
  }

  /** The second block's closing line holds no rule. */
  lemma {:induction false} SampleClosingLineHasNoRule(lines: seq<string>, i0: string, i2: string, i4: string, i6: string)
    requires IsSample(lines, i0, i2, i4, i6)
    ensures Js.MatchHttpRule(lines[10]).None?
  {
    NoVerbLetterNoRule(lines[10], 0, true);
  }

  lemma {:induction false} SampleHasShape(lines: seq<string>, i0: string, i2: string, i4: string, i6: string)
    requires IsSample(lines, i0, i2, i4, i6)
    ensures SampleShape(lines)
  {
    SampleHeaderLines(lines, i0, i2, i4, i6);
    SamplePlainLines(lines, i0, i2, i4, i6);
    SampleBraces(lines, i0, i2, i4, i6);
    SampleRouteLine(lines, i0, i2, i4, i6);
    SampleClosingLineHasNoRule(lines, i0, i2, i4, i6);
  }

  /** Both option lines are looked up at line 2. */
  lemma {:induction false} SampleOptionIndex(lines: seq<string>)
    requires SampleShape(lines)
    ensures FirstIndex(lines, lines[2]) == 2 && FirstIndex(lines, lines[7]) == 2
  {
    if FirstIndex(lines, lines[2]) > 2 {
      FirstIndexIsFirst(lines, lines[2], 2);
    }
  }

  // parse_proto, one line at a time

  lemma {:induction false} PythonPlainLine(lines: seq<string>, k: nat)
    requires k < |lines| && Plain(lines[k])
    ensures Py.ParseLines(lines, k + 1) == Py.ParseLines(lines, k)
  {
  }

  lemma {:induction false} PythonServiceLine(lines: seq<string>, k: nat)
    requires k < |lines| && MatchService(lines[k]).Some?
    ensures Py.ParseLines(lines, k + 1) == AddService(Py.ParseLines(lines, k), MatchService(lines[k]).value)
  {
    Py.ServiceLineOpensService(Py.ParseLines(lines, k), lines, k);
  }

  lemma {:induction false} PythonRpcLine(lines: seq<string>, k: nat)
    requires k < |lines| && MatchRpc(lines[k]).Some? && Py.ParseLines(lines, k) != []
    ensures Py.ParseLines(lines, k + 1) == AddMethod(Py.ParseLines(lines, k), DefaultMethod(MatchRpc(lines[k]).value))
  {
    Py.RpcLineAddsPostMethod(Py.ParseLines(lines, k), lines, k);
  }

  lemma {:induction false} PythonOptionLine(lines: seq<string>, k: nat)
    requires k < |lines| && MatchesHttpOption(lines[k]) && HasCurrentMethod(Py.ParseLines(lines, k))
    ensures var s := Py.ParseLines(lines, k);
      Py.ParseLines(lines, k + 1) == ReplaceLastMethod(s, Py.ScanOptionBlock(lines, FirstIndex(lines, lines[k]) + 1, LastMethod(s)))
  {
    var s := Py.ParseLines(lines, k);
    PythonOptionStep(s, lines, k);
    assert Py.ParseLines(lines, k + 1) == Py.Step(s, lines, k);
  }

  lemma {:induction false} PythonOptionStep(services: seq<Service>, lines: seq<string>, k: nat)
    requires k < |lines| && MatchesHttpOption(lines[k]) && HasCurrentMethod(services)
    ensures Py.Step(services, lines, k) ==
      ReplaceLastMethod(services, Py.ScanOptionBlock(lines, FirstIndex(lines, lines[k]) + 1, LastMethod(services)))
  {
    LineKindsAreExclusive(lines[k]);
  }

  /** Replacing the last method by itself changes nothing. */
  lemma {:induction false} ReplaceBySame(services: seq<Service>)
    requires HasCurrentMethod(services)
    ensures ReplaceLastMethod(services, LastMethod(services)) == services
  {
    var r := ReplaceLastMethod(services, LastMethod(services));
    assert Last(r).methods == Last(services).methods;
    assert r[|r| - 1] == services[|services| - 1];
    assert r == r[..|r| - 1] + [r[|r| - 1]];
    assert services == services[..|services| - 1] + [services[|services| - 1]];
  }

  lemma {:induction false} PythonOpensService(lines: seq<string>)
    requires SampleShape(lines)
    ensures Py.ParseLines(lines, 1) == [Service("UserService", [])]
  {
    assert Py.ParseLines(lines, 0) == [];
    PythonServiceLine(lines, 0);
  }

  lemma {:induction false} PythonReadsFirstRpc(lines: seq<string>)
    requires SampleShape(lines)
    ensures Py.ParseLines(lines, 2) == [Service("UserService", [DefaultMethod(GetUser)])]
  {
    var m := DefaultMethod(GetUser);
    PythonOpensService(lines);
    var s1 := Py.ParseLines(lines, 1);
    PythonRpcLine(lines, 1);
    var s2 := AddMethod(s1, m);
    assert [] + [m] == [m];
    assert s2[0] == Last(s2) == Service("UserService", [m]);
    assert s2 == [s2[0]];
  }

  /** The first block changes nothing: its first line holds `}`. */
  lemma {:induction false} PythonSkipsFirstBlock(lines: seq<string>)
    requires SampleShape(lines)
    ensures Py.ParseLines(lines, 6) == [Service("UserService", [DefaultMethod(GetUser)])]
  {
    var s := [Service("UserService", [DefaultMethod(GetUser)])];
    PythonReadsFirstRpc(lines);
    SampleOptionIndex(lines);
    PythonOptionLine(lines, 2);
    ReplaceBySame(s);
    PythonPlainLine(lines, 3);
    PythonPlainLine(lines, 4);
    PythonPlainLine(lines, 5);
  }

  /**
   * `parse_proto` on the sample: both methods stay POST with an empty path.
   * Both option lines read the block after line 2, whose first line holds
   * `}` in `{id}`, so the scan stops before it reads any rule.
   */
  lemma {:induction false} PythonParsesSample(lines: seq<string>)
    requires SampleShape(lines)
    ensures Py.ParseLines(lines, 13) == [Service("UserService", [DefaultMethod(GetUser), DefaultMethod(CreateUser)])]
  {
    var s := [Service("UserService", [DefaultMethod(GetUser), DefaultMethod(CreateUser)])];
    PythonSkipsFirstBlock(lines);
    PythonRpcLine(lines, 6);
    assert [DefaultMethod(GetUser)] + [DefaultMethod(CreateUser)] == [DefaultMethod(GetUser), DefaultMethod(CreateUser)];
    SampleOptionIndex(lines);
    PythonOptionLine(lines, 7);
    ReplaceBySame(s);
    PythonPlainLine(lines, 8);
    PythonPlainLine(lines, 9);
    PythonPlainLine(lines, 10);
    PythonPlainLine(lines, 11);
    PythonPlainLine(lines, 12);
  }

  /**
   * The block scan of `parse_proto` leaves the first method as the rpc line
   * made it, while the scan with the closing check after the rule check
   * reads the route and its parameter.
   */
  lemma {:induction false} PythonScanOfFirstBlock(lines: seq<string>)
    requires SampleShape(lines)
    ensures Py.ScanOptionBlock(lines, 3, DefaultMethod(GetUser)) == DefaultMethod(GetUser)
    ensures Py.ScanOptionBlockIntended(lines, 3, DefaultMethod(GetUser)) == GetUserRouted
  {
    GetRoute();
  }

  // parseProto, one line at a time

  lemma {:induction false} NodePlainLine(lines: seq<string>, k: nat, lookup: Js.BlockLookup)
    requires k < |lines| && Plain(lines[k]) && Js.ParseLines(lines, k, lookup).Ok?
    ensures Js.ParseLines(lines, k + 1, lookup) == Js.ParseLines(lines, k, lookup)
  {
  }

  lemma {:induction false} NodeServiceLine(lines: seq<string>, k: nat, lookup: Js.BlockLookup)
    requires k < |lines| && MatchService(lines[k]).Some? && Js.ParseLines(lines, k, lookup).Ok?
    ensures Js.ParseLines(lines, k + 1, lookup) ==
      Ok(AddService(Js.ParseLines(lines, k, lookup).value, MatchService(lines[k]).value))
  {
    LineKindsAreExclusive(lines[k]);
  }

  lemma {:induction false} NodeRpcLine(lines: seq<string>, k: nat, lookup: Js.BlockLookup)
    requires k < |lines| && MatchRpc(lines[k]).Some?
    requires Js.ParseLines(lines, k, lookup).Ok? && Js.ParseLines(lines, k, lookup).value != []
    ensures Js.ParseLines(lines, k + 1, lookup) ==
      Ok(AddMethod(Js.ParseLines(lines, k, lookup).value, DefaultMethod(MatchRpc(lines[k]).value)))
  {
    LineKindsAreExclusive(lines[k]);
  }

  lemma {:induction false} NodeOptionLine(lines: seq<string>, k: nat, lookup: Js.BlockLookup)
    requires k < |lines| && MatchesHttpOption(lines[k])
    requires Js.ParseLines(lines, k, lookup).Ok? && HasCurrentMethod(Js.ParseLines(lines, k, lookup).value)
    ensures var s := Js.ParseLines(lines, k, lookup).value;
      match Js.ReadOptionBlock(lines, Js.BlockStart(lines, k, lookup), LastMethod(s))
      case None => Js.ParseLines(lines, k + 1, lookup) == Err(Js.NoClosingLine(k))
      case Some(m) => Js.ParseLines(lines, k + 1, lookup) == Ok(ReplaceLastMethod(s, m))
  {
    var s := Js.ParseLines(lines, k, lookup).value;
    NodeOptionStep(s, lines, k, lookup);
    assert Js.ParseLines(lines, k + 1, lookup) == Js.Step(s, lines, k, lookup);
  }

  lemma {:induction false} NodeOptionStep(services: seq<Service>, lines: seq<string>, k: nat, lookup: Js.BlockLookup)
    requires k < |lines| && MatchesHttpOption(lines[k]) && HasCurrentMethod(services)
    ensures Js.Step(services, lines, k, lookup) ==
      Js.AfterOptionCheck(services, lines, k, lookup)
  {
    LineKindsAreExclusive(lines[k]);
  }

  lemma {:induction false} NodeOpensService(lines: seq<string>, lookup: Js.BlockLookup)
    requires SampleShape(lines)
    ensures Js.ParseLines(lines, 1, lookup) == Ok([Service("UserService", [])])
  {
    assert Js.ParseLines(lines, 0, lookup) == Ok([]);
    NodeServiceLine(lines, 0, lookup);
    assert AddService([], "UserService") == [Service("UserService", [])];
  }

  lemma {:induction false} NodeReadsFirstRpc(lines: seq<string>, lookup: Js.BlockLookup)
    requires SampleShape(lines)
    ensures Js.ParseLines(lines, 2, lookup) == Ok([Service("UserService", [DefaultMethod(GetUser)])])
  {
    var m := DefaultMethod(GetUser);
    NodeOpensService(lines, lookup);
    var s1 := Js.ParseLines(lines, 1, lookup).value;
    NodeRpcLine(lines, 1, lookup);
    var s2 := AddMethod(s1, m);
    assert [] + [m] == [m];
    assert s2[0] == Last(s2) == Service("UserService", [m]);
    assert s2 == [s2[0]];
  }

  /** Under either lookup, the first option line reads its own block: the rule line that closes it. */
  lemma {:induction false} NodeReadsFirstBlock(lines: seq<string>, lookup: Js.BlockLookup)
    requires SampleShape(lines)
    ensures Js.ParseLines(lines, 6, lookup) == Ok([Service("UserService", [GetUserRouted])])
  {
    var s := [Service("UserService", [DefaultMethod(GetUser)])];
    NodeReadsFirstRpc(lines, lookup);
    SampleOptionIndex(lines);
    assert Js.BlockStart(lines, 2, lookup) == 3;
    assert Js.ClosingLine(lines, 3) == Some(3);
    GetRoute();
    assert Js.ReadOptionBlock(lines, 3, DefaultMethod(GetUser)) == Some(GetUserRouted);
    NodeOptionLine(lines, 2, lookup);
    var r := ReplaceLastMethod(s, GetUserRouted);
    assert [DefaultMethod(GetUser)][..0] + [GetUserRouted] == [GetUserRouted];
    assert r == [r[0]];
    NodePlainLine(lines, 3, lookup);
    NodePlainLine(lines, 4, lookup);
    NodePlainLine(lines, 5, lookup);
  }

  lemma {:induction false} NodeReadsSecondRpc(lines: seq<string>, lookup: Js.BlockLookup)
    requires SampleShape(lines)
    ensures Js.ParseLines(lines, 7, lookup) == Ok([Service("UserService", [GetUserRouted, DefaultMethod(CreateUser)])])
  {
    NodeReadsFirstBlock(lines, lookup);
    NodeRpcLine(lines, 6, lookup);
    var s := AddMethod([Service("UserService", [GetUserRouted])], DefaultMethod(CreateUser));
    assert [GetUserRouted] + [DefaultMethod(CreateUser)] == [GetUserRouted, DefaultMethod(CreateUser)];
    assert s == [s[0]];
  }

  /** Under `indexOf`, the second option line reads the first block, the one that closes at line 3. */
  lemma {:induction false} NodeReadsSecondBlock(lines: seq<string>)
    requires SampleShape(lines)
    ensures Js.ParseLines(lines, 8, Js.FirstOccurrence) == Ok([Service("UserService", [GetUserRouted, CreateUserRouted])])
  {
    var lookup := Js.FirstOccurrence;
    var s := [Service("UserService", [GetUserRouted, DefaultMethod(CreateUser)])];
    NodeReadsSecondRpc(lines, lookup);
    SampleOptionIndex(lines);
    assert Js.BlockStart(lines, 7, lookup) == 3;
    assert Js.ClosingLine(lines, 3) == Some(3);
    GetRoute();
    assert Js.ReadOptionBlock(lines, 3, DefaultMethod(CreateUser)) == Some(CreateUserRouted);
    NodeOptionLine(lines, 7, lookup);
    var r := ReplaceLastMethod(s, CreateUserRouted);
    assert [GetUserRouted, DefaultMethod(CreateUser)][..1] + [CreateUserRouted] == [GetUserRouted, CreateUserRouted];
    assert r == [r[0]];
  }

  /**
   * `parseProto` on the sample: the second option line has the text of the
   * first, so `indexOf` sends it back to the first block, and the second
   * method takes the first method's route and parameter.
   */
  lemma {:induction false} NodeParsesSample(lines: seq<string>)
    requires SampleShape(lines)
    ensures Js.ParseLines(lines, 13, Js.FirstOccurrence) == Ok([Service("UserService", [GetUserRouted, CreateUserRouted])])
  {
    var lookup := Js.FirstOccurrence;
    NodeReadsSecondBlock(lines);
    NodePlainLine(lines, 8, lookup);
    NodePlainLine(lines, 9, lookup);
    NodePlainLine(lines, 10, lookup);
    NodePlainLine(lines, 11, lookup);
    NodePlainLine(lines, 12, lookup);
  }

  /** Read from the line after it, the second option block closes at line 10, which holds no rule. */
  lemma {:induction false} SecondBlockOwnLine(lines: seq<string>)
    requires SampleShape(lines)
    ensures Js.ClosingLine(lines, 8) == Some(10)
    ensures Js.ReadOptionBlock(lines, 8, DefaultMethod(CreateUser)) == Some(DefaultMethod(CreateUser))
  {
    assert Js.ClosingLine(lines, 10) == Some(10);
    assert Js.ClosingLine(lines, 8) == Js.ClosingLine(lines, 10);
  }

  /**
   * With each option line reading the lines after itself, the second option
   * line reads its own block's closing line `};`, which holds no rule, so
   * the second method keeps POST and the empty path.
   */
  lemma {:induction false} NodeOwnLineParsesSample(lines: seq<string>)
    requires SampleShape(lines)
    ensures Js.ParseLines(lines, 13, Js.OwnLine) == Ok([Service("UserService", [GetUserRouted, DefaultMethod(CreateUser)])])
  {
    var lookup := Js.OwnLine;
    var s := [Service("UserService", [GetUserRouted, DefaultMethod(CreateUser)])];
    NodeReadsSecondRpc(lines, lookup);
    SecondBlockOwnLine(lines);
    NodeOptionLine(lines, 7, lookup);
    ReplaceBySame(s);
    NodePlainLine(lines, 8, lookup);
    NodePlainLine(lines, 9, lookup);
    NodePlainLine(lines, 10, lookup);
    NodePlainLine(lines, 11, lookup);
    NodePlainLine(lines, 12, lookup);
  }

  /**
   * What the two parsers return for the sample, at any indentation:
   * `parse_proto` leaves both methods POST with an empty path, `parseProto`
   * gives both the first block's route, and a lookup by position gives each
   * method its own block.
   */
  lemma {:induction false} SampleResults(lines: seq<string>, i0: string, i2: string, i4: string, i6: string)
    requires IsSample(lines, i0, i2, i4, i6)
    ensures Py.ParseLines(lines, |lines|) == [Service("UserService", [DefaultMethod(GetUser), DefaultMethod(CreateUser)])]
    ensures Js.ParseLines(lines, |lines|, Js.FirstOccurrence) == Ok([Service("UserService", [GetUserRouted, CreateUserRouted])])
    ensures Js.ParseLines(lines, |lines|, Js.OwnLine) == Ok([Service("UserService", [GetUserRouted, DefaultMethod(CreateUser)])])
  {
    SampleHasShape(lines, i0, i2, i4, i6);
    PythonParsesSample(lines);
    NodeParsesSample(lines);
    NodeOwnLineParsesSample(lines);
  }
}

/**
 * The Python gateway generator's `.proto` reader (`parse_proto` and
 * `capitalize` in gRPC_gateway/script.py).  The file arrives as its list of
 * lines.  A service line opens a new current service; an rpc line adds a
 * POST method with an empty path to the current service; an option line
 * scans the lines that follow the FIRST line with the same text, up to the
 * first line holding `}`, and lets every `verb: "path"` line there override
 * the verb and path of the current service's last method.
 */
module PythonProtoParser {
  import opened Wrappers
  import opened ProtoPatterns

  /** `capitalize`: the first character upper cased; an empty string raises IndexError. */
  function Capitalize(s: string): (r: Option<string>)
    ensures r.None? <==> s == []
    ensures r.Some? ==> |r.value| == |s| && r.value[1..] == s[1..] && !('a' <= r.value[0] <= 'z')
    ensures r.Some? ==> LowerChar(r.value[0]) == LowerChar(s[0])
  {
    if s == [] then None else CasingsAgree(s[0]); Some([UpperChar(s[0])] + s[1..])
  }

  /** `re.match(r'\s*(get|post|put|delete):\s*\"([^\"]+)\"', sub_line)`: anchored, lower-case verbs only. */
  function MatchHttpRule(line: string): Option<HttpRule> {
    RuleAt(line, SkipSpaces(line, 0), false)
  }

  /** The position of the first line at or after `k` that holds `}`, or the end of the file. */
  function BlockEnd(lines: seq<string>, k: nat): (e: nat)
    ensures k <= e || e == |lines|
    ensures e <= |lines| || e == k
    ensures forall t :: k <= t < e && t < |lines| ==> '}' !in lines[t]
    ensures e < |lines| ==> '}' in lines[e]
    decreases |lines| - k
  {
    if k >= |lines| || '}' in lines[k] then k else BlockEnd(lines, k + 1)
  }

  /**
   * The option block read from position `k`: every line before the first
   * line holding `}` that matches a rule overrides verb and path, and sets
   * the parameter when the path names one.
   */
  function ScanOptionBlock(lines: seq<string>, k: nat, m: RpcMethod): (r: RpcMethod)
    ensures HeaderOf(r) == HeaderOf(m)
    decreases |lines| - k
  {
    if k >= |lines| || '}' in lines[k] then m
    else
      match MatchHttpRule(lines[k])
      case Some(rule) => ScanOptionBlock(lines, k + 1, ApplyRule(m, rule))
      case None => ScanOptionBlock(lines, k + 1, m)
  }

  /** An option line rewrites the current service's last method from the block it reads. */
  function AfterOptionCheck(services: seq<Service>, lines: seq<string>, i: nat): seq<Service>
    requires i < |lines|
  {
    if MatchesHttpOption(lines[i]) && HasCurrentMethod(services) then
      ReplaceLastMethod(services, ScanOptionBlock(lines, FirstIndex(lines, lines[i]) + 1, LastMethod(services)))
    else services
  }

  /** What one pass of the loop body does with line `i`: the three checks, in the order the loop makes them. */
  function Step(services: seq<Service>, lines: seq<string>, i: nat): seq<Service>
    requires i < |lines|
  {
    AfterOptionCheck(AfterRpcCheck(AfterServiceCheck(services, lines[i]), lines[i]), lines, i)
  }

  /** The services after the first `n` lines. */
  function ParseLines(lines: seq<string>, n: nat): seq<Service>
    requires n <= |lines|
  {
    if n == 0 then [] else Step(ParseLines(lines, n - 1), lines, n - 1)
  }

  /** `parse_proto`, over the lines `readlines` returns. */
  method ParseProto(lines: seq<string>) returns (services: seq<Service>)
    ensures services == ParseLines(lines, |lines|)
    ensures ServiceNames(services) == ServiceLineNames(lines)
    ensures AllHeaders(services) == RpcLineHeaders(lines)
    ensures forall i, j :: 0 <= i < |services| && 0 <= j < |services[i].methods| ==>
      services[i].methods[j].param.None? && WellFormedMethod(services[i].methods[j])
  {
    services := [];
    for i := 0 to |lines|
      invariant services == ParseLines(lines, i)
      invariant Every(services, IsPythonMethod)
    {
      StepKeepsPythonMethods(services, lines, i);
      services := ParseLine(services, lines, i);
    }
    assert lines[..|lines|] == lines;
    ParseKeepsFileOrder(lines, |lines|);
    EveryAt(services, IsPythonMethod);
  }

  /** One pass of the loop body of `parse_proto`, over line `i`. */
  method ParseLine(services: seq<Service>, lines: seq<string>, i: nat) returns (r: seq<Service>)
    requires i < |lines|
    ensures r == Step(services, lines, i)
  {
    var line := lines[i];
    var afterService := CheckService(services, line);
    var afterRpc := CheckRpc(afterService, line);
    r := CheckOption(afterRpc, lines, i);
  }

  /** The option check of the loop body. */
  method CheckOption(services: seq<Service>, lines: seq<string>, i: nat) returns (r: seq<Service>)
    requires i < |lines|
    ensures r == AfterOptionCheck(services, lines, i)
  {
    var line := lines[i];
    r := services;
    if MatchesHttpOption(line) && HasCurrentMethod(services) {
      var scanned := ScanBlock(lines, FirstIndex(lines, line) + 1, LastMethod(services));
      r := ReplaceLastMethod(services, scanned);
    }
  }

  /** The inner loop of `parse_proto`: reads the option block that starts at `start` into `m`. */
  method ScanBlock(lines: seq<string>, start: nat, m: RpcMethod) returns (r: RpcMethod)
    requires start <= |lines|
    ensures r == ScanOptionBlock(lines, start, m)
  {
    r := m;
    var j := start;
    while j < |lines|
      invariant start <= j <= |lines|
      invariant ScanOptionBlock(lines, j, r) == ScanOptionBlock(lines, start, m)
      decreases |lines| - j
    {
      if '}' in lines[j] {
        break;
      }
      var httpMatch := MatchHttpRule(lines[j]);
      if httpMatch.Some? {
        r := ApplyRule(r, httpMatch.value);
      }
      j := j + 1;
    }
  }

  /** A line that opens a service appends it, empty, as the new current service. */
  lemma {:induction false} ServiceLineOpensService(services: seq<Service>, lines: seq<string>, i: nat)
    requires i < |lines| && MatchService(lines[i]).Some?
    ensures Step(services, lines, i) == AddService(services, MatchService(lines[i]).value)
  {
    LineKindsAreExclusive(lines[i]);
  }

  /** An rpc line appends a POST method with an empty path to the current service, and is ignored before any service. */
  lemma {:induction false} RpcLineAddsPostMethod(services: seq<Service>, lines: seq<string>, i: nat)
    requires i < |lines| && MatchRpc(lines[i]).Some?
    ensures Step(services, lines, i) ==
      if services == [] then services else AddMethod(services, DefaultMethod(MatchRpc(lines[i]).value))
  {
    LineKindsAreExclusive(lines[i]);
  }

  /**
   * An option line changes only the last method of the current service, and
   * keeps its name and message types; it changes nothing when the current
   * service has no method yet.
   */
  lemma {:induction false} OptionLineTouchesOnlyLastMethod(services: seq<Service>, lines: seq<string>, i: nat)
    requires i < |lines| && MatchesHttpOption(lines[i])
    ensures var r := Step(services, lines, i);
      if HasCurrentMethod(services) then
        |r| == |services| && r[..|r| - 1] == services[..|services| - 1] &&
        Last(r).name == Last(services).name &&
        Last(r).methods[..|Last(r).methods| - 1] == Last(services).methods[..|Last(services).methods| - 1] &&
        HeaderOf(LastMethod(r)) == HeaderOf(LastMethod(services))
      else r == services
  {
    LineKindsAreExclusive(lines[i]);
    if HasCurrentMethod(services) {
      var m := ScanOptionBlock(lines, FirstIndex(lines, lines[i]) + 1, LastMethod(services));
      var r := ReplaceLastMethod(services, m);
      assert Last(r).methods[..|Last(r).methods| - 1] == Last(services).methods[..|Last(services).methods| - 1];
    }
  }

  /** Each pass appends at most one service name and one method header, those of its own line. */
  lemma {:induction false} StepKeepsOrder(services: seq<Service>, lines: seq<string>, i: nat)
    requires i < |lines|
    ensures ServiceNames(Step(services, lines, i)) == ServiceNames(services) + ServiceNameOf(lines[i])
    ensures AllHeaders(Step(services, lines, i)) ==
      AllHeaders(services) + (if services != [] || MatchService(lines[i]).Some? then RpcHeaderOf(lines[i]) else [])
  {
    var line := lines[i];
    LineKindsAreExclusive(line);
    if MatchService(line).Some? {
      ServiceLineOpensService(services, lines, i);
      AddServiceKeepsOrder(services, MatchService(line).value);
    } else if MatchRpc(line).Some? {
      RpcLineAddsPostMethod(services, lines, i);
      if services != [] {
        AddMethodKeepsOrder(services, DefaultMethod(MatchRpc(line).value));
      }
    } else if MatchesHttpOption(line) && HasCurrentMethod(services) {
      var m := ScanOptionBlock(lines, FirstIndex(lines, line) + 1, LastMethod(services));
      ReplaceLastMethodKeepsOrder(services, m);
    }
  }

  /**
   * The services come out in the order of their lines, and the methods, read
   * service after service, in the order of the rpc lines that follow the
   * first service line, whatever the option blocks say.
   */
  lemma {:induction false} ParseKeepsFileOrder(lines: seq<string>, n: nat)
    requires n <= |lines|
    ensures ServiceNames(ParseLines(lines, n)) == ServiceLineNames(lines[..n])
    ensures AllHeaders(ParseLines(lines, n)) == RpcLineHeaders(lines[..n])
  {
    if n > 0 {
      ParseKeepsFileOrder(lines, n - 1);
      var before := ParseLines(lines, n - 1);
      assert ParseLines(lines, n) == Step(before, lines, n - 1);
      StepKeepsOrder(before, lines, n - 1);
      ReferenceStep(lines, n);
      ServiceNamesLength(before);
      ServiceNamesLength(ParseLines(lines, n));
    }
  }

  /** A line with no `}` never yields a path parameter: `{name}` needs a closing brace. */
  lemma {:induction false} RuleWithoutBraceHasNoParam(line: string)
    requires '}' !in line && MatchHttpRule(line).Some?
    ensures SearchParam(MatchHttpRule(line).value.path).None?
  {
  }

  /** What every method the Python parser builds looks like: a known verb and no parameter. */
  predicate IsPythonMethod(m: RpcMethod) {
    WellFormedMethod(m) && m.param.None?
  }

  /** Scanning an option block leaves a missing parameter missing, and sets a known verb. */
  lemma {:induction false} ScanNeverSetsParam(lines: seq<string>, k: nat, m: RpcMethod)
    requires IsPythonMethod(m)
    ensures IsPythonMethod(ScanOptionBlock(lines, k, m))
    decreases |lines| - k
  {
    if k < |lines| && '}' !in lines[k] {
      match MatchHttpRule(lines[k])
      case Some(rule) =>
        RuleWithoutBraceHasNoParam(lines[k]);
        ScanNeverSetsParam(lines, k + 1, ApplyRule(m, rule));
      case None =>
        ScanNeverSetsParam(lines, k + 1, m);
    }
  }

  lemma {:induction false} StepKeepsPythonMethods(services: seq<Service>, lines: seq<string>, i: nat)
    requires i < |lines| && Every(services, IsPythonMethod)
    ensures Every(Step(services, lines, i), IsPythonMethod)
  {
    var line := lines[i];
    LineKindsAreExclusive(line);
    if MatchService(line).Some? {
      ServiceLineOpensService(services, lines, i);
      EveryAfterAddService(services, MatchService(line).value, IsPythonMethod);
    } else if MatchRpc(line).Some? {
      RpcLineAddsPostMethod(services, lines, i);
      if services != [] {
        EveryAfterAddMethod(services, DefaultMethod(MatchRpc(line).value), IsPythonMethod);
      }
    } else if MatchesHttpOption(line) && HasCurrentMethod(services) {
      EveryGivesLastMethod(services, IsPythonMethod);
      var start := FirstIndex(lines, line) + 1;
      ScanNeverSetsParam(lines, start, LastMethod(services));
      EveryAfterReplaceLastMethod(services, ScanOptionBlock(lines, start, LastMethod(services)), IsPythonMethod);
    }
  }



  /** The last rule among the lines from `k` up to, not including, `e`. */
  function LastRule(lines: seq<string>, k: nat, e: nat): Option<HttpRule>
    requires k <= e <= |lines|
    decreases e - k
  {
    if e == k then None
    else
      match MatchHttpRule(lines[e - 1])
      case Some(rule) => Some(rule)
      case None => LastRule(lines, k, e - 1)
  }

  /** Looking from `k` is looking at line `k` first and then from `k + 1`. */
  lemma {:induction false} LastRuleFrom(lines: seq<string>, k: nat, e: nat)
    requires k < e <= |lines|
    ensures LastRule(lines, k, e) ==
      if LastRule(lines, k + 1, e).Some? then LastRule(lines, k + 1, e) else MatchHttpRule(lines[k])
    decreases e - k
  {
    if e > k + 1 && MatchHttpRule(lines[e - 1]).None? {
      LastRuleFrom(lines, k, e - 1);
    }
  }

  /**
   * The verb and path an option block leaves are those of its last rule
   * line before the first line holding `}`: a later rule overrides an
   * earlier one, and a block without rules changes nothing.
   */
  lemma {:induction false} ScanTakesLastRule(lines: seq<string>, k: nat, m: RpcMethod)
    requires k <= |lines|
    ensures var r := ScanOptionBlock(lines, k, m);
      match LastRule(lines, k, BlockEnd(lines, k))
      case None => r == m
      case Some(rule) => r.httpMethod == rule.verb && r.path == rule.path
    decreases |lines| - k
  {
    if k < |lines| && '}' !in lines[k] {
      var e := BlockEnd(lines, k);
      assert e == BlockEnd(lines, k + 1);
      LastRuleFrom(lines, k, e);
      match MatchHttpRule(lines[k])
      case Some(rule) => ScanTakesLastRule(lines, k + 1, ApplyRule(m, rule));
      case None => ScanTakesLastRule(lines, k + 1, m);
    }
  }

  /**
   * The block scan with the closing check made after the rule check, so a
   * rule on the line that closes the block, such as `get: "/users/{id}"`,
   * is read as well.
   */
  function ScanOptionBlockIntended(lines: seq<string>, k: nat, m: RpcMethod): (r: RpcMethod)
    ensures HeaderOf(r) == HeaderOf(m)
    decreases |lines| - k
  {
    if k >= |lines| then m
    else
      var read := match MatchHttpRule(lines[k]) case Some(rule) => ApplyRule(m, rule) case None => m;
      if '}' in lines[k] then read else ScanOptionBlockIntended(lines, k + 1, read)
  }

  /** The end of the block including its closing line. */
  function BlockEndIncluding(lines: seq<string>, k: nat): (e: nat)
    requires k <= |lines|
    ensures k <= e <= |lines|
  {
    var e := BlockEnd(lines, k);
    if e < |lines| then e + 1 else e
  }

  /**
   * With the corrected order, the verb and path come from the last rule line
   * of the block counting its closing line.
   */
  lemma {:induction false} IntendedScanTakesLastRule(lines: seq<string>, k: nat, m: RpcMethod)
    requires k <= |lines|
    ensures var r := ScanOptionBlockIntended(lines, k, m);
      match LastRule(lines, k, BlockEndIncluding(lines, k))
      case None => r == m
      case Some(rule) => r.httpMethod == rule.verb && r.path == rule.path
    decreases |lines| - k
  {
    if k < |lines| {
      var e := BlockEndIncluding(lines, k);
      LastRuleFrom(lines, k, e);
      var read := match MatchHttpRule(lines[k]) case Some(rule) => ApplyRule(m, rule) case None => m;
      if '}' in lines[k] {
        assert e == k + 1;
        assert LastRule(lines, k + 1, e) == None;
      } else {
        assert e == BlockEndIncluding(lines, k + 1);
        IntendedScanTakesLastRule(lines, k + 1, read);
      }
    }
  }
}

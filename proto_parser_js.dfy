/**
 * The Node gateway generator's `.proto` reader (`parseProto` and the
 * `capitalize` helper in gRPC_gateway/script.js).  The file arrives as the
 * pieces `split('\n')` gives.  Service and rpc lines are handled as in the
 * Python reader.  An option line reads exactly one line: the first line
 * holding `}` after the first line with the option line's text.  The verb may
 * be written in any case and may stand anywhere in that line.  When no such
 * line exists, `httpDetails` is undefined and the whole parse fails with a
 * TypeError.
 */
module NodeProtoParser {
  import opened Wrappers
  import opened ProtoPatterns

  /** The TypeError `parseProto` throws, with the option line that raised it. */
  datatype ParseError = NoClosingLine(optionLine: nat)

  /**
   * Where an option line's block is looked up: after the first line with the
   * same text (`lines.indexOf(line)`, as written), or after the option line
   * itself.
   */
  datatype BlockLookup = FirstOccurrence | OwnLine

  /** The `capitalize` helper: the first character upper cased; the empty string stays empty. */
  function Capitalize(s: string): (r: string)
    ensures |r| == |s|
    ensures s != [] ==> r[1..] == s[1..] && !('a' <= r[0] <= 'z')
    ensures s != [] ==> LowerChar(r[0]) == LowerChar(s[0])
  {
    if s == [] then [] else CasingsAgree(s[0]); [UpperChar(s[0])] + s[1..]
  }

  /** `line.match(/(get|post|put|delete):\s*"([^"]+)"/i)`: the leftmost match, verbs in any case. */
  function MatchHttpRule(line: string): Option<HttpRule> {
    SearchRuleFrom(line, 0, true)
  }

  /** `.find((subLine) => subLine.includes('}'))` on the lines from `k` on. */
  function ClosingLine(lines: seq<string>, k: nat): (r: Option<nat>)
    ensures r.Some? ==> k <= r.value < |lines| && '}' in lines[r.value]
    decreases |lines| - k
  {
    if k >= |lines| then None
    else if '}' in lines[k] then Some(k)
    else ClosingLine(lines, k + 1)
  }

  /** A line holding `}` at or after `k` is found, or an earlier one is. */
  lemma {:induction false} ClosingLineFound(lines: seq<string>, k: nat, t: nat)
    requires k <= t < |lines| && '}' in lines[t]
    ensures ClosingLine(lines, k).Some? && ClosingLine(lines, k).value <= t
    decreases t - k
  {
    if '}' !in lines[k] {
      ClosingLineFound(lines, k + 1, t);
    }
  }

  /** When nothing is found, no line from `k` on holds `}`. */
  lemma {:induction false} ClosingLineMissing(lines: seq<string>, k: nat, t: nat)
    requires ClosingLine(lines, k).None? && k <= t < |lines|
    ensures '}' !in lines[t]
  {
    if '}' in lines[t] {
      ClosingLineFound(lines, k, t);
    }
  }

  /** The position after which an option line at `i` reads its block. */
  function BlockStart(lines: seq<string>, i: nat, lookup: BlockLookup): nat
    requires i < |lines|
  {
    match lookup
    case FirstOccurrence => FirstIndex(lines, lines[i]) + 1
    case OwnLine => i + 1
  }

  /**
   * The block as `parseProto` reads it: only the first line holding `}` from
   * `start` on, which must exist (None stands for the TypeError).
   */
  function ReadOptionBlock(lines: seq<string>, start: nat, m: RpcMethod): (r: Option<RpcMethod>)
    ensures r.Some? ==> HeaderOf(r.value) == HeaderOf(m)
    ensures r.Some? && WellFormedMethod(m) ==> WellFormedMethod(r.value)
    ensures r.None? <==> ClosingLine(lines, start).None?
  {
    match ClosingLine(lines, start)
    case None => None
    case Some(j) =>
      match MatchHttpRule(lines[j])
      case Some(rule) => Some(ApplyRule(m, rule))
      case None => Some(m)
  }

  /** An option line rewrites the current service's last method from the line it reads, or fails. */
  function AfterOptionCheck(services: seq<Service>, lines: seq<string>, i: nat, lookup: BlockLookup): Result<seq<Service>, ParseError>
    requires i < |lines|
  {
    if MatchesHttpOption(lines[i]) && HasCurrentMethod(services) then
      match ReadOptionBlock(lines, BlockStart(lines, i, lookup), LastMethod(services))
      case None => Err(NoClosingLine(i))
      case Some(m) => Ok(ReplaceLastMethod(services, m))
    else Ok(services)
  }

  /** What one call of the `forEach` callback does with line `i`. */
  function Step(services: seq<Service>, lines: seq<string>, i: nat, lookup: BlockLookup): Result<seq<Service>, ParseError>
    requires i < |lines|
  {
    AfterOptionCheck(AfterRpcCheck(AfterServiceCheck(services, lines[i]), lines[i]), lines, i, lookup)
  }

  /** The services after the first `n` lines; a TypeError ends the parse. */
  function ParseLines(lines: seq<string>, n: nat, lookup: BlockLookup): Result<seq<Service>, ParseError>
    requires n <= |lines|
  {
    if n == 0 then Ok([])
    else
      match ParseLines(lines, n - 1, lookup)
      case Err(e) => Err(e)
      case Ok(services) => Step(services, lines, n - 1, lookup)
  }

  /** `parseProto`, over the pieces of the file. */
  method ParseProto(lines: seq<string>) returns (r: Result<seq<Service>, ParseError>)
    ensures r == ParseLines(lines, |lines|, FirstOccurrence)
    ensures r.Ok? ==> ServiceNames(r.value) == ServiceLineNames(lines) && AllHeaders(r.value) == RpcLineHeaders(lines)
    ensures r.Ok? ==> forall i, j :: 0 <= i < |r.value| && 0 <= j < |r.value[i].methods| ==>
      WellFormedMethod(r.value[i].methods[j])
    ensures r.Err? ==>
      var k := r.error.optionLine;
      k < |lines| && MatchesHttpOption(lines[k]) &&
      forall t :: FirstIndex(lines, lines[k]) < t < |lines| ==> '}' !in lines[t]
  {
    var services: seq<Service> := [];
    for i := 0 to |lines|
      invariant ParseLines(lines, i, FirstOccurrence) == Ok(services)
      invariant ServiceNames(services) == ServiceLineNames(lines[..i])
      invariant AllHeaders(services) == RpcLineHeaders(lines[..i])
      invariant Every(services, WellFormedMethod)
    {
      var next := ParseLine(services, lines, i);
      if next.Err? {
        FailedPassEndsParse(services, lines, i);
        return next;
      }
      StepKeepsOrder(services, lines, i, FirstOccurrence);
      StepKeepsWellFormed(services, lines, i, FirstOccurrence);
      ReferenceStep(lines, i + 1);
      services := next.value;
    }
    assert lines[..|lines|] == lines;
    EveryAt(services, WellFormedMethod);
    r := Ok(services);
  }

  /** One call of the `forEach` callback of `parseProto`, over line `i`. */
  method ParseLine(services: seq<Service>, lines: seq<string>, i: nat) returns (r: Result<seq<Service>, ParseError>)
    requires i < |lines|
    ensures r == Step(services, lines, i, FirstOccurrence)
  {
    var line := lines[i];
    var afterService := CheckService(services, line);
    var afterRpc := CheckRpc(afterService, line);
    r := CheckOption(afterRpc, lines, i);
  }

  /** The option check of the callback. */
  method CheckOption(services: seq<Service>, lines: seq<string>, i: nat) returns (r: Result<seq<Service>, ParseError>)
    requires i < |lines|
    ensures r == AfterOptionCheck(services, lines, i, FirstOccurrence)
  {
    var line := lines[i];
    if MatchesHttpOption(line) && HasCurrentMethod(services) {
      var updated := ReadBlock(lines, FirstIndex(lines, line) + 1, LastMethod(services));
      if updated.None? {
        return Err(NoClosingLine(i));
      }
      return Ok(ReplaceLastMethod(services, updated.value));
    }
    return Ok(services);
  }

  /** The body of the option check: the closing line's rule, if any, applied to `m`; None for the TypeError. */
  method ReadBlock(lines: seq<string>, start: nat, m: RpcMethod) returns (r: Option<RpcMethod>)
    ensures r == ReadOptionBlock(lines, start, m)
  {
    var httpDetails := ClosingLine(lines, start);
    if httpDetails.None? {
      return None;
    }
    var updated := m;
    var httpMatch := MatchHttpRule(lines[httpDetails.value]);
    if httpMatch.Some? {
      updated := ApplyRule(updated, httpMatch.value);
    }
    return Some(updated);
  }

  /** Once a line has raised the TypeError, the parse result is that error. */
  lemma {:induction false} ErrorEndsParse(lines: seq<string>, a: nat, b: nat, lookup: BlockLookup)
    requires a <= b <= |lines| && ParseLines(lines, a, lookup).Err?
    ensures ParseLines(lines, b, lookup) == ParseLines(lines, a, lookup)
    decreases b - a
  {
    if a < b {
      ErrorEndsParse(lines, a, b - 1, lookup);
    }
  }

  /** A pass that raises the TypeError ends the parse with it, and the file has no `}` after the option line's first occurrence. */
  lemma {:induction false} FailedPassEndsParse(services: seq<Service>, lines: seq<string>, i: nat)
    requires i < |lines| && ParseLines(lines, i, FirstOccurrence) == Ok(services)
    requires Step(services, lines, i, FirstOccurrence).Err?
    ensures Step(services, lines, i, FirstOccurrence) == Err(NoClosingLine(i))
    ensures ParseLines(lines, |lines|, FirstOccurrence) == Err(NoClosingLine(i))
    ensures MatchesHttpOption(lines[i])
    ensures forall t :: FirstIndex(lines, lines[i]) < t < |lines| ==> '}' !in lines[t]
  {
    StepFailure(services, lines, i, FirstOccurrence);
    FailedPassIsParseResult(services, lines, i);
    ErrorEndsParse(lines, i + 1, |lines|, FirstOccurrence);
    NothingClosesAfter(lines, FirstIndex(lines, lines[i]) + 1);
  }

  lemma {:induction false} FailedPassIsParseResult(services: seq<Service>, lines: seq<string>, i: nat)
    requires i < |lines| && ParseLines(lines, i, FirstOccurrence) == Ok(services)
    requires Step(services, lines, i, FirstOccurrence) == Err(NoClosingLine(i))
    ensures ParseLines(lines, i + 1, FirstOccurrence) == Err(NoClosingLine(i))
  {
  }

  lemma {:induction false} NothingClosesAfter(lines: seq<string>, k: nat)
    requires ClosingLine(lines, k).None?
    ensures forall t :: k <= t < |lines| ==> '}' !in lines[t]
  {
    forall t | k <= t < |lines|
      ensures '}' !in lines[t]
    {
      ClosingLineMissing(lines, k, t);
    }
  }

  /** A pass fails only on an option line under a method whose block has no line holding `}`. */
  lemma {:induction false} StepFailure(services: seq<Service>, lines: seq<string>, i: nat, lookup: BlockLookup)
    requires i < |lines| && Step(services, lines, i, lookup).Err?
    ensures Step(services, lines, i, lookup).error == NoClosingLine(i)
    ensures MatchesHttpOption(lines[i]) && ClosingLine(lines, BlockStart(lines, i, lookup)).None?
  {
  }

  /** Each pass appends at most one service name and one method header, those of its own line. */
  lemma {:induction false} StepKeepsOrder(services: seq<Service>, lines: seq<string>, i: nat, lookup: BlockLookup)
    requires i < |lines| && Step(services, lines, i, lookup).Ok?
    ensures ServiceNames(Step(services, lines, i, lookup).value) == ServiceNames(services) + ServiceNameOf(lines[i])
    ensures AllHeaders(Step(services, lines, i, lookup).value) ==
      AllHeaders(services) + (if services != [] || MatchService(lines[i]).Some? then RpcHeaderOf(lines[i]) else [])
  {
    var line := lines[i];
    var checked := AfterRpcCheck(AfterServiceCheck(services, line), line);
    ChecksKeepOrder(services, line);
    if MatchesHttpOption(line) && HasCurrentMethod(checked) {
      var m := ReadOptionBlock(lines, BlockStart(lines, i, lookup), LastMethod(checked)).value;
      ReplaceLastMethodKeepsOrder(checked, m);
    }
  }

  /** Each pass keeps every method with a known verb and a word, if anything, as parameter. */
  lemma {:induction false} StepKeepsWellFormed(services: seq<Service>, lines: seq<string>, i: nat, lookup: BlockLookup)
    requires i < |lines| && Every(services, WellFormedMethod) && Step(services, lines, i, lookup).Ok?
    ensures Every(Step(services, lines, i, lookup).value, WellFormedMethod)
  {
    var line := lines[i];
    var checked := AfterRpcCheck(AfterServiceCheck(services, line), line);
    ChecksKeepEvery(services, line, WellFormedMethod);
    if MatchesHttpOption(line) && HasCurrentMethod(checked) {
      EveryGivesLastMethod(checked, WellFormedMethod);
      var m := ReadOptionBlock(lines, BlockStart(lines, i, lookup), LastMethod(checked)).value;
      EveryAfterReplaceLastMethod(checked, m, WellFormedMethod);
    }
  }

  /**
   * An option line whose text already occurred at `j` reads the block of
   * that earlier occurrence, as `indexOf` finds the first one; when a line
   * holding `}` lies between the two, the line it reads comes before the
   * option line itself.
   */
  lemma {:induction false} RepeatedOptionLineReadsEarlierBlock(lines: seq<string>, j: nat, t: nat, i: nat)
    requires j < t < i < |lines| && lines[j] == lines[i] && '}' in lines[t]
    ensures BlockStart(lines, i, FirstOccurrence) == BlockStart(lines, j, FirstOccurrence) <= j + 1
    ensures ClosingLine(lines, BlockStart(lines, i, FirstOccurrence)).Some?
    ensures ClosingLine(lines, BlockStart(lines, i, FirstOccurrence)).value <= t < i
  {
    RepeatedLineIndex(lines, j, i);
    ClosingLineFound(lines, BlockStart(lines, i, FirstOccurrence), t);
  }

  /** Looked up from its own line, an option line reads the first line holding `}` after itself. */
  lemma {:induction false} OwnLineReadsNextClosingLine(lines: seq<string>, i: nat)
    requires i < |lines| && ClosingLine(lines, BlockStart(lines, i, OwnLine)).Some?
    ensures var c := ClosingLine(lines, BlockStart(lines, i, OwnLine)).value;
      i < c && forall t :: i < t < c ==> '}' !in lines[t]
  {
    var c := ClosingLine(lines, i + 1).value;
    forall t | i < t < c
      ensures '}' !in lines[t]
    {
      if '}' in lines[t] {
        ClosingLineFound(lines, i + 1, t);
      }
    }
  }
}

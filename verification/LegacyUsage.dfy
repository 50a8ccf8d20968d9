/**
 * The usage scanner of the Python proxy: while chunks pass through to the client, a text buffer is
 * cut at blank lines and each block may replace the usage found so far. The answer depends on the
 * text alone, not on where the network cut it into chunks.
 */
module LegacyUsage {
  import opened Wrappers
  import opened Json
  import Sequences
  import Settling
  import Text

  // ---------- Python's string helpers ----------

  predicate IsLineBreak(c: char) {
    '\n' <= c <= '\r' || '\U{001c}' <= c <= '\U{001e}' || c == '\U{0085}' || c == '\U{2028}' || c == '\U{2029}'
  }

  /** `str.isspace`: the Unicode white space and the four separator controls. */
  predicate IsPySpace(c: char) {
    Text.IsSpace(c) || '\U{001c}' <= c <= '\U{001f}'
  }

  function Strip(s: string): string
    decreases |s|
  {
    if s != "" && IsPySpace(s[0]) then Strip(s[1..])
    else if s != "" && IsPySpace(s[|s| - 1]) then Strip(s[..|s| - 1])
    else s
  }

  function LineEnd(s: string): (n: nat)
    ensures n <= |s|
  {
    if s == "" || IsLineBreak(s[0]) then 0 else 1 + LineEnd(s[1..])
  }

  /** `str.splitlines`: a carriage return and line feed count as one break. */
  function SplitLines(s: string): seq<string>
    decreases |s|
  {
    if s == "" then [] else
    var n := LineEnd(s);
    if n == |s| then [s]
    else [s[..n]] + SplitLines(s[if "\r\n" <= s[n..] then n + 2 else n + 1..])
  }

  /** Stripping cuts white space off both ends and nothing else. */
  lemma {:induction false} StripIs(s: string) returns (i: nat, j: nat)
    ensures i <= j <= |s| && Strip(s) == s[i..j]
    ensures forall k :: 0 <= k < i || j <= k < |s| ==> IsPySpace(s[k])
    ensures i < j ==> !IsPySpace(s[i]) && !IsPySpace(s[j - 1])
    decreases |s|
  {
    hide IsPySpace;
    if s != "" && IsPySpace(s[0]) {
      i, j := StripIs(s[1..]);
      i, j := i + 1, j + 1;
      assert s[1..][i - 1..j - 1] == s[i..j];
      assert forall k :: 1 <= k < |s| ==> s[k] == s[1..][k - 1];
    } else if s != "" && IsPySpace(s[|s| - 1]) {
      i, j := StripIs(s[..|s| - 1]);
      assert s[i..j] == s[..|s| - 1][i..j];
      assert forall k :: 0 <= k < |s| - 1 ==> s[k] == s[..|s| - 1][k];
    } else {
      i, j := 0, |s|;
    }
  }

  predicate OneLine(s: string) {
    forall i :: 0 <= i < |s| ==> !IsLineBreak(s[i])
  }

  lemma {:induction false} LineEndOf(line: string, more: string)
    requires OneLine(line) && (more != "" ==> IsLineBreak(more[0]))
    ensures LineEnd(line + more) == |line|
  {
    var s := line + more;
    if line != "" {
      assert s[0] == line[0] && s[1..] == line[1..] + more;
      LineEndOf(line[1..], more);
    }
  }

  lemma LineSplits(line: string, more: string)
    requires OneLine(line) && (more != "" ==> IsLineBreak(more[0]))
    ensures more != "" ==>
              SplitLines(line + more) == [line] + SplitLines(if "\r\n" <= more then more[2..] else more[1..])
    ensures more == "" && line != "" ==> SplitLines(line + more) == [line]
  {
    hide IsLineBreak, LineEnd, OneLine;
    LineEndOf(line, more);
    var s := line + more;
    assert more == "" ==> s == line;
    assert s[..|line|] == line && s[|line|..] == more;
    assert more != "" ==> s[|line| + 1..] == more[1..];
    assert "\r\n" <= more ==> s[|line| + 2..] == more[2..];
  }

  /** A line ends at the first line break; a carriage return takes a line feed behind it along. */
  lemma FirstLineSplits(line: string, ending: char, rest: string)
    requires OneLine(line) && IsLineBreak(ending)
    ensures !(ending == '\r' && rest != "" && rest[0] == '\n') ==>
              SplitLines(line + ([ending] + rest)) == [line] + SplitLines(rest)
    ensures SplitLines(line + ("\r\n" + rest)) == [line] + SplitLines(rest)
    ensures line != "" ==> SplitLines(line) == [line]
  {
    hide IsLineBreak, SplitLines, LineEnd;
    var a, b := [ending] + rest, "\r\n" + rest;
    assert IsLineBreak('\r') by { CarriageReturnBreaks(); }
    LineSplits(line, a);
    LineSplits(line, b);
    LineSplits(line, "");
    assert line + "" == line && a[1..] == rest && b[2..] == rest;
    assert "\r\n" <= b && b[0] == '\r' && b[1] == '\n';
    assert "\r\n" <= a <==> ending == '\r' && rest != "" && rest[0] == '\n' by { TwoFirst(a); }
  }

  lemma CarriageReturnBreaks()
    ensures IsLineBreak('\r') && IsLineBreak('\n')
  {
  }

  lemma TwoFirst(s: string)
    ensures "\r\n" <= s <==> |s| >= 2 && s[0] == '\r' && s[1] == '\n'
  {
  }

  // ---------- one block ----------

  datatype Usage = Usage(input: Option<int>, output: Option<int>, total: Option<int>)

  /** `json.loads`, None for text that is not JSON, and `int`, None for what it rejects. */
  datatype Python = Python(loads: string -> Option<Json>, toInt: Json -> Option<int>)

  /** What a block says about usage; `Fails` is an exception that nobody catches. */
  datatype Reading = Nothing | Found(usage: Usage) | Fails

  predicate Truthy(value: Json) {
    match value
    case Null => false
    case Bool(b) => b
    case Num(n) => n != 0
    case Str(s) => s != ""
    case Arr(items) => items != []
    case Obj(fields) => fields != map[]
  }

  /** `usage.get(key, usage.get(other))`. */
  function GetOr(usage: Json, key: string, other: string): Json {
    if usage.Obj? && key in usage.fields then usage.fields[key] else Field(usage, other)
  }

  /** `_as_int`. */
  function AsInt(py: Python, value: Json): Option<int> {
    if value.Null? then None else py.toInt(value)
  }

  /** `int(value or 0)`. */
  function IntOrZero(py: Python, value: Json): Option<int> {
    if Truthy(value) then py.toInt(value) else Some(0)
  }

  function UsageObject(payload: Json): Json {
    if Field(payload, "usage").Obj? then Field(payload, "usage") else Field(Field(payload, "response"), "usage")
  }

  /** `usage_from_payload`. */
  function UsageFromPayload(py: Python, payload: Json): Reading {
    var usage := UsageObject(payload);
    if !usage.Obj? then Nothing else
    var input, output := GetOr(usage, "input_tokens", "prompt_tokens"),
        GetOr(usage, "output_tokens", "completion_tokens");
    var total := Field(usage, "total_tokens");
    if total.Null? && (!input.Null? || !output.Null?) then
      var i, o := IntOrZero(py, input), IntOrZero(py, output);
      if i.None? || o.None? then Fails
      else Found(Usage(AsInt(py, input), AsInt(py, output), Some(i.value + o.value)))
    else Found(Usage(AsInt(py, input), AsInt(py, output), AsInt(py, total)))
  }

  /** The data lines of a block, without their prefix. */
  function DataLines(lines: seq<string>): seq<string> {
    if lines == [] then [] else
    var line := Strip(lines[|lines| - 1]);
    DataLines(lines[..|lines| - 1]) + if "data:" <= line then [Strip(line[5..])] else []
  }

  function ReadBlock(py: Python, block: string): Reading {
    var lines := DataLines(SplitLines(block));
    var data := Text.Join(lines, "\n");
    if lines == [] || data == "[DONE]" then Nothing else
    var payload := py.loads(data);
    if payload.None? then Nothing else UsageFromPayload(py, payload.value)
  }

  /** The scanner between blocks; once an exception is raised it stays so. */
  datatype Scan = Running(usage: Option<Usage>) | Raised(usage: Option<Usage>)

  function Step(py: Python, s: Scan, block: string): Scan {
    if s.Raised? then s else
    match ReadBlock(py, block)
    case Nothing => s
    case Found(u) => Running(Some(u))
    case Fails => Raised(s.usage)
  }

  /** `update_usage_from_sse_block`. */
  method UpdateUsage(py: Python, block: string, current: Option<Usage>) returns (next: Scan)
    ensures next == Step(py, Running(current), block)
  {
    hide Strip, SplitLines, UsageFromPayload, Text.Join;
    var lines := SplitLines(block);
    var dataLines: seq<string> := [];
    for i := 0 to |lines|
      invariant dataLines == DataLines(lines[..i])
    {
      assert lines[..i + 1][..i] == lines[..i];
      var line := Strip(lines[i]);
      if "data:" <= line {
        dataLines := dataLines + [Strip(line[5..])];
      }
    }
    assert lines[..|lines|] == lines;
    if dataLines == [] {
      return Running(current);
    }
    var data := Text.Join(dataLines, "\n");
    if data == "[DONE]" {
      return Running(current);
    }
    var payload := py.loads(data);
    if payload.None? {
      return Running(current);
    }
    var reading := UsageFromPayload(py, payload.value);
    match reading
    case Nothing => next := Running(current);
    case Found(u) => next := Running(Some(u));
    case Fails => next := Raised(current);
  }

  // ---------- what one report of usage comes to ----------

  /** A count given under its new name, its old one, or not at all. */
  datatype Given = Modern(n: int) | Former(n: int) | Absent

  function GivenFields(modern: string, former: string, g: Given): map<string, Json> {
    match g case Modern(n) => map[modern := Num(n)] case Former(n) => map[former := Num(n)] case Absent => map[]
  }

  function CountOf(g: Given): Option<int> {
    if g.Absent? then None else Some(g.n)
  }

  /** A usage object as an API sends it. */
  function UsageReport(input: Given, output: Given, total: Option<int>): Json {
    Obj(GivenFields("input_tokens", "prompt_tokens", input) + GivenFields("output_tokens", "completion_tokens", output)
        + if total.Some? then map["total_tokens" := Num(total.value)] else map[])
  }

  /** `int` of a number is the number. */
  ghost predicate ReadsNumbers(py: Python) {
    forall n :: py.toInt(Num(n)) == Some(n)
  }

  function OrZero(count: Option<int>): int {
    if count.Some? then count.value else 0
  }

  lemma UsageNames()
    ensures |"input_tokens"| == 12 && |"output_tokens"| == 13 && |"total_tokens"| == 12
    ensures |"prompt_tokens"| == 13 && |"completion_tokens"| == 17 && |"usage"| == 5 && |"response"| == 8
    ensures "input_tokens"[0] != "total_tokens"[0] && "prompt_tokens"[0] != "output_tokens"[0]
  {
  }

  /** Input and output under either name; a missing total is their sum if one of them is given. */
  function Reported(input: Given, output: Given, total: Option<int>): Usage {
    Usage(CountOf(input), CountOf(output),
          if total.None? && (!input.Absent? || !output.Absent?)
          then Some(OrZero(CountOf(input)) + OrZero(CountOf(output))) else total)
  }

  lemma NumberRead(py: Python, n: int)
    requires ReadsNumbers(py)
    ensures AsInt(py, Num(n)) == IntOrZero(py, Num(n)) == Some(n)
  {
  }

  lemma NothingRead(py: Python)
    ensures AsInt(py, Null) == None && IntOrZero(py, Null) == Some(0)
  {
  }

  lemma CountRead(py: Python, g: Given)
    requires ReadsNumbers(py)
    ensures var value := if g.Absent? then Null else Num(g.n);
            AsInt(py, value) == CountOf(g) && IntOrZero(py, value) == Some(OrZero(CountOf(g)))
  {
    hide AsInt, IntOrZero, ReadsNumbers;
    if g.Absent? { NothingRead(py); } else { NumberRead(py, g.n); }
  }

  /** The counts read once the usage object is found. */
  lemma FoundReport(py: Python, payload: Json, input: Given, output: Given, total: Option<int>)
    requires ReadsNumbers(py) && UsageObject(payload) == UsageReport(input, output, total)
    ensures UsageFromPayload(py, payload) == Found(Reported(input, output, total))
  {
    hide GetOr, UsageReport, UsageObject, Field, IntOrZero, AsInt, ReadsNumbers;
    ReportFields(input, output, total);
    CountRead(py, input);
    CountRead(py, output);
    if total.Some? { NumberRead(py, total.value); } else { NothingRead(py); }
  }

  lemma ReportRead(py: Python, input: Given, output: Given, total: Option<int>)
    requires ReadsNumbers(py)
    ensures UsageFromPayload(py, Obj(map["usage" := UsageReport(input, output, total)]))
         == Found(Reported(input, output, total))
    ensures UsageFromPayload(py, Obj(map["response" := Obj(map["usage" := UsageReport(input, output, total)])]))
         == Found(Reported(input, output, total))
  {
    hide GetOr, UsageReport, UsageObject, UsageFromPayload, ReadsNumbers, Reported;
    var report := UsageReport(input, output, total);
    assert report.Obj? by { ReportFields(input, output, total); }
    UsagePlace(report);
    FoundReport(py, Obj(map["usage" := report]), input, output, total);
    FoundReport(py, Obj(map["response" := Obj(map["usage" := report])]), input, output, total);
  }

  lemma UsagePlace(report: Json)
    requires report.Obj?
    ensures UsageObject(Obj(map["usage" := report])) == report
    ensures UsageObject(Obj(map["response" := Obj(map["usage" := report])])) == report
  {
    UsageNames();
  }

  lemma ReportFields(input: Given, output: Given, total: Option<int>)
    ensures var report := UsageReport(input, output, total);
            && report.Obj?
            && GetOr(report, "input_tokens", "prompt_tokens") == (if input.Absent? then Null else Num(input.n))
            && GetOr(report, "output_tokens", "completion_tokens") == (if output.Absent? then Null else Num(output.n))
            && Field(report, "total_tokens") == (if total.None? then Null else Num(total.value))
  {
    UsageNames();
  }

  /** Lines joined by line feeds split again, unless the last one is empty. */
  lemma {:induction false} JoinedLinesSplit(lines: seq<string>)
    requires lines != [] && lines[|lines| - 1] != "" && forall i :: 0 <= i < |lines| ==> OneLine(lines[i])
    ensures SplitLines(Text.Join(lines, "\n")) == lines
    decreases |lines|
  {
    hide SplitLines, IsLineBreak;
    CarriageReturnBreaks();
    if |lines| == 1 {
      FirstLineSplits(lines[0], '\n', "");
    } else {
      var more := Text.Join(lines[1..], "\n");
      FirstLineSplits(lines[0], '\n', more);
      assert lines[0] + "\n" + more == lines[0] + (['\n'] + more);
      JoinedLinesSplit(lines[1..]);
    }
  }

  /** What a line adds to the data of its block: the stripped rest of a data line. */
  function DataOf(line: string): seq<string> {
    if "data:" <= Strip(line) then [Strip(Strip(line)[5..])] else []
  }

  /** The data of a block, line by line. */
  function DataText(lines: seq<string>): seq<string> {
    Settling.Concat(line => DataOf(line), lines)
  }

  lemma {:induction false} DataTextRead(lines: seq<string>)
    ensures DataLines(lines) == DataText(lines)
    decreases |lines|
  {
    hide Strip;
    if lines != [] {
      var init, last := lines[..|lines| - 1], lines[|lines| - 1];
      assert lines == init + [last];
      DataTextRead(init);
      Settling.ConcatSnoc(line => DataOf(line), init, last);
    }
  }

  /**
   * A block of lines says about usage what its data lines, stripped and joined, hold as JSON;
   * nothing if there is none, if it is the end marker or no JSON.
   */
  lemma BlockSays(py: Python, lines: seq<string>)
    requires lines != [] && lines[|lines| - 1] != "" && forall i :: 0 <= i < |lines| ==> OneLine(lines[i])
    ensures var data := Text.Join(DataText(lines), "\n");
            ReadBlock(py, Text.Join(lines, "\n"))
            == if DataText(lines) == [] || data == "[DONE]" || py.loads(data).None? then Nothing
               else UsageFromPayload(py, py.loads(data).value)
  {
    hide Strip, SplitLines, UsageFromPayload, Text.Join;
    JoinedLinesSplit(lines);
    DataTextRead(lines);
  }

  // ---------- blocks ----------

  predicate BreakAt(s: string, k: int) {
    0 <= k < |s| - 1 && s[k] == '\n' && s[k + 1] == '\n'
  }

  predicate NoBreak(s: string) {
    forall k :: 0 <= k < |s| ==> !BreakAt(s, k)
  }

  /** Where the leftmost blank line starts. */
  function FirstBreak(s: string): (r: Option<nat>)
    ensures r.None? ==> NoBreak(s)
    ensures r.Some? ==> BreakAt(s, r.value) && forall k :: k < r.value ==> !BreakAt(s, k)
  {
    if |s| < 2 then None
    else if s[0] == '\n' && s[1] == '\n' then Some(0)
    else
      var r := FirstBreak(s[1..]);
      assert forall k :: 1 <= k ==> (BreakAt(s, k) <==> BreakAt(s[1..], k - 1));
      if r.Some? then Some(r.value + 1) else None
  }

  /** The blocks cut off at leftmost blank lines, and what is left. */
  datatype Split = Split(blocks: seq<string>, rest: string)

  function SplitBlocks(s: string): Split
    decreases |s|
  {
    var i := FirstBreak(s);
    if i.None? then Split([], s) else
    var tail := SplitBlocks(s[i.value + 2..]);
    Split([s[..i.value]] + tail.blocks, tail.rest)
  }

  /** Text arriving later only continues the rest of what came before. */
  lemma {:induction false} AppendSplit(a: string, b: string)
    ensures SplitBlocks(a + b).blocks == SplitBlocks(a).blocks + SplitBlocks(SplitBlocks(a).rest + b).blocks
    ensures SplitBlocks(a + b).rest == SplitBlocks(SplitBlocks(a).rest + b).rest
    decreases |a|
  {
    hide FirstBreak, SplitBlocks;
    if FirstBreak(a).Some? {
      var i := FirstBreak(a).value;
      var tail := a[i + 2..];
      SameFirstBreak(a, b);
      FirstBlock(a);
      FirstBlock(a + b);
      PastBreak(a, b, i);
      AppendSplit(tail, b);
      Sequences.ConcatAssociates([a[..i]], SplitBlocks(tail).blocks, SplitBlocks(SplitBlocks(tail).rest + b).blocks);
    } else {
      NothingLeft(a);
      EmptyFront(SplitBlocks(a + b).blocks);
    }
  }

  lemma PastBreak(a: string, b: string, i: nat)
    requires i + 2 <= |a|
    ensures (a + b)[..i] == a[..i] && (a + b)[i + 2..] == a[i + 2..] + b
  {
  }

  lemma EmptyFront(blocks: seq<string>)
    ensures [] + blocks == blocks
  {
  }

  lemma FirstBlock(s: string)
    requires FirstBreak(s).Some?
    ensures SplitBlocks(s).blocks == [s[..FirstBreak(s).value]] + SplitBlocks(s[FirstBreak(s).value + 2..]).blocks
    ensures SplitBlocks(s).rest == SplitBlocks(s[FirstBreak(s).value + 2..]).rest
  {
  }

  lemma SameFirstBreak(a: string, b: string)
    requires FirstBreak(a).Some?
    ensures FirstBreak(a + b) == FirstBreak(a)
  {
    hide FirstBreak;
    var i := FirstBreak(a).value;
    assert forall k :: k <= i ==> (BreakAt(a + b, k) <==> BreakAt(a, k));
    assert BreakAt(a + b, i);
    var j := FirstBreak(a + b);
    assert j.Some? && !(j.value < i) && !(i < j.value);
  }

  /** Blocks and rest put back together. */
  function Whole(blocks: seq<string>, rest: string): string {
    if blocks == [] then rest else blocks[0] + "\n\n" + Whole(blocks[1..], rest)
  }

  /** No blank line in the block, nor one that its last line feed and the separator would make. */
  predicate CutLeftmost(block: string) {
    NoBreak(block + "\n")
  }

  lemma FirstBreakAfter(block: string, more: string)
    ensures FirstBreak(block + "\n\n" + more) == Some(|block|) <==> CutLeftmost(block)
  {
    hide FirstBreak;
    var s := block + "\n\n" + more;
    assert BreakAt(s, |block|);
    assert forall k :: k < |block| ==> (BreakAt(s, k) <==> BreakAt(block + "\n", k));
    assert forall k :: k >= |block| ==> !BreakAt(block + "\n", k);
    var j := FirstBreak(s);
    if CutLeftmost(block) {
      assert j.Some? && !(j.value < |block|) && !(|block| < j.value);
    }
    if j == Some(|block|) {
      assert forall k :: k < |block| ==> !BreakAt(s, k);
    }
  }

  /** Splitting undoes joining exactly for blocks that the leftmost cut leaves whole. */
  lemma {:induction false} SplitUndoesWhole(blocks: seq<string>, rest: string)
    ensures SplitBlocks(Whole(blocks, rest)) == Split(blocks, rest)
       <==> NoBreak(rest) && forall b :: b in blocks ==> CutLeftmost(b)
    decreases |blocks|
  {
    hide CutLeftmost, NoBreak;
    if blocks == [] {
      NoBreakIff(rest);
    } else {
      var first, more := blocks[0], Whole(blocks[1..], rest);
      var s := first + "\n\n" + more;
      assert blocks == [first] + blocks[1..];
      FirstBreakAfter(first, more);
      SplitUndoesWhole(blocks[1..], rest);
      assert s[..|first|] == first && s[|first| + 2..] == more;
      if FirstBreak(s).Some? {
        FirstBlock(s);
        FirstLength(s);
      }
    }
  }

  lemma FirstLength(s: string)
    requires FirstBreak(s).Some?
    ensures |SplitBlocks(s).blocks| > 0 && |SplitBlocks(s).blocks[0]| == FirstBreak(s).value
    ensures SplitBlocks(s).blocks[1..] == SplitBlocks(s[FirstBreak(s).value + 2..]).blocks
  {
  }

  lemma NoBreakIff(s: string)
    ensures NoBreak(s) <==> FirstBreak(s).None?
  {
  }

  lemma OneBlock(first: string, blocks: seq<string>, rest: string)
    ensures Whole([first] + blocks, rest) == first + "\n\n" + Whole(blocks, rest)
  {
    assert ([first] + blocks)[1..] == blocks;
  }

  lemma NoBlock(s: string)
    requires FirstBreak(s).None?
    ensures SplitBlocks(s) == Split([], s) && Whole([], s) == s
  {
  }

  /** Joining undoes splitting, and every block is cut at the leftmost place. */
  lemma {:induction false} WholeUndoesSplit(s: string)
    ensures Whole(SplitBlocks(s).blocks, SplitBlocks(s).rest) == s
    decreases |s|
  {
    hide FirstBreak, SplitBlocks, Whole;
    var i := FirstBreak(s);
    if i.Some? {
      var first, more := s[..i.value], s[i.value + 2..];
      FirstBlock(s);
      WholeUndoesSplit(more);
      assert s == first + "\n\n" + more;
      OneBlock(first, SplitBlocks(more).blocks, SplitBlocks(more).rest);
    } else {
      NoBlock(s);
    }
  }

  // ---------- the scan ----------

  function Fold(py: Python, s: Scan, blocks: seq<string>): Scan {
    if blocks == [] then s else Step(py, Fold(py, s, blocks[..|blocks| - 1]), blocks[|blocks| - 1])
  }

  lemma FoldMore(py: Python, s: Scan, blocks: seq<string>, block: string)
    ensures Fold(py, s, blocks + [block]) == Step(py, Fold(py, s, blocks), block)
  {
    assert (blocks + [block])[..|blocks|] == blocks;
  }

  lemma {:induction false} RaisedStays(py: Python, s: Scan, a: seq<string>, b: seq<string>)
    requires Fold(py, s, a).Raised?
    ensures Fold(py, s, a + b) == Fold(py, s, a)
    decreases |b|
  {
    hide ReadBlock;
    if b == [] {
      assert a + b == a;
    } else {
      var init, last := b[..|b| - 1], b[|b| - 1];
      assert a + b == (a + init) + [last];
      RaisedStays(py, s, a, init);
      FoldMore(py, s, a + init, last);
    }
  }

  /** The last block that reports usage decides. */
  lemma {:induction false} LastUsageWins(py: Python, start: Option<Usage>, blocks: seq<string>, k: nat)
    requires forall b :: b in blocks ==> ReadBlock(py, b) != Fails
    requires k <= |blocks| && forall i :: k < i < |blocks| ==> ReadBlock(py, blocks[i]) == Nothing
    requires k < |blocks| ==> ReadBlock(py, blocks[k]).Found?
    requires k == |blocks| ==> forall b :: b in blocks ==> ReadBlock(py, b) == Nothing
    ensures Fold(py, Running(start), blocks)
         == Running(if k < |blocks| then Some(ReadBlock(py, blocks[k]).usage) else start)
    decreases |blocks|
  {
    hide ReadBlock;
    if blocks != [] {
      var init, last := blocks[..|blocks| - 1], blocks[|blocks| - 1];
      assert blocks == init + [last];
      if k == |blocks| {
        LastUsageWins(py, start, init, |init|);
      } else if k < |blocks| - 1 {
        assert init[k] == blocks[k];
        LastUsageWins(py, start, init, k);
      } else {
        NeverRaised(py, start, init);
      }
    }
  }

  lemma {:induction false} NeverRaised(py: Python, start: Option<Usage>, blocks: seq<string>)
    requires forall b :: b in blocks ==> ReadBlock(py, b) != Fails
    ensures Fold(py, Running(start), blocks).Running?
    decreases |blocks|
  {
    hide ReadBlock;
    if blocks != [] {
      assert blocks == blocks[..|blocks| - 1] + [blocks[|blocks| - 1]];
      NeverRaised(py, start, blocks[..|blocks| - 1]);
    }
  }

  /** A piece of the body as it arrived, and its text. */
  datatype Chunk = Chunk(size: nat, text: string)

  function TextOf(chunks: seq<Chunk>): string {
    if chunks == [] then "" else TextOf(chunks[..|chunks| - 1]) + chunks[|chunks| - 1].text
  }

  function SizeOf(chunks: seq<Chunk>): nat {
    if chunks == [] then 0 else SizeOf(chunks[..|chunks| - 1]) + chunks[|chunks| - 1].size
  }

  /** What the scan of a whole text comes to; the rest counts only if the body ended without an error. */
  function Scanned(py: Python, start: Option<Usage>, text: string, complete: bool): Scan {
    var split := SplitBlocks(text);
    var s := Fold(py, Running(start), split.blocks);
    if complete && split.rest != "" then Step(py, s, split.rest) else s
  }

  /**
   * The usage of a body of blocks and a rest: that of the last block that reports one, the rest
   * being a block too if the body ended without an error.
   */
  lemma BodyUsageIs(py: Python, start: Option<Usage>, blocks: seq<string>, rest: string, complete: bool, k: nat)
    requires NoBreak(rest) && forall b :: b in blocks ==> CutLeftmost(b)
    requires var all := blocks + if complete && rest != "" then [rest] else [];
             && (forall b :: b in all ==> ReadBlock(py, b) != Fails) && k <= |all|
             && (forall i :: k < i < |all| ==> ReadBlock(py, all[i]) == Nothing)
             && if k < |all| then ReadBlock(py, all[k]).Found?
                else forall b :: b in all ==> ReadBlock(py, b) == Nothing
    ensures var all := blocks + if complete && rest != "" then [rest] else [];
            Scanned(py, start, Whole(blocks, rest), complete)
            == Running(if k < |all| then Some(ReadBlock(py, all[k]).usage) else start)
  {
    hide SplitBlocks, ReadBlock, Fold, Whole, CutLeftmost, NoBreak;
    SplitUndoesWhole(blocks, rest);
    var all := blocks + if complete && rest != "" then [rest] else [];
    LastUsageWins(py, start, all, k);
    FoldMore(py, Running(start), blocks, rest);
    assert blocks + [] == blocks;
  }

  class StreamMetrics {
    var responseBytes: nat
    var usage: Option<Usage>
    var error: Option<string>

    constructor ()
      ensures responseBytes == 0 && usage == None && error == None
    {
      responseBytes, usage, error := 0, None, None;
    }

    /** The inner loop of `body_iterator`: cut blocks off the buffer while it holds a blank line. */
    method DrainBlocks(py: Python, text: string) returns (buffer: string, raised: bool)
      modifies this`usage
      ensures var s := Fold(py, Running(old(usage)), SplitBlocks(text).blocks); raised == s.Raised? && usage == s.usage
      ensures !raised ==> buffer == SplitBlocks(text).rest
    {
      hide Step, FirstBreak, SplitBlocks, Fold;
      buffer := text;
      raised := false;
      ghost var done: seq<string> := [];
      assert Fold(py, Running(usage), []) == Running(usage) by { FoldNothing(py, Running(usage)); }
      while FirstBreak(buffer).Some?
        invariant Fold(py, Running(old(usage)), done) == Running(usage)
        invariant SplitBlocks(text).blocks == done + SplitBlocks(buffer).blocks
        invariant SplitBlocks(text).rest == SplitBlocks(buffer).rest
        decreases |buffer|
      {
        var i := FirstBreak(buffer).value;
        var block := buffer[..i];
        FirstBlock(buffer);
        buffer := buffer[i + 2..];
        FoldMore(py, Running(old(usage)), done, block);
        done := done + [block];
        assert SplitBlocks(text).blocks == done + SplitBlocks(buffer).blocks;
        var next := UpdateUsage(py, block, usage);
        usage := next.usage;
        if next.Raised? {
          RaisedStays(py, Running(old(usage)), done, SplitBlocks(buffer).blocks);
          raised := true;
          return;
        }
      }
      NothingLeft(buffer);
      assert done + [] == done;
    }

    /**
     * `body_iterator`: every chunk is passed on; `httpError` names the error the body ended with, if
     * any. The usage is that of the whole text, however it was cut into chunks.
     */
    method BodyIterator(py: Python, chunks: seq<Chunk>, httpError: Option<string>)
      returns (sent: seq<Chunk>, raised: bool)
      modifies this
      ensures usage == Scanned(py, old(usage), TextOf(chunks), httpError.None?).usage
      ensures raised == Scanned(py, old(usage), TextOf(chunks), httpError.None?).Raised?
      ensures sent <= chunks && (!raised ==> sent == chunks && responseBytes == old(responseBytes) + SizeOf(chunks))
      ensures !raised ==> error == if httpError.Some? then httpError else old(error)
    {
      hide Step, FirstBreak, SplitBlocks, Fold;
      ghost var start := Running(usage);
      var buffer := "";
      sent, raised := [], false;
      NothingYet(py, start);
      for i := 0 to |chunks|
        invariant sent == chunks[..i] && !raised
        invariant responseBytes == old(responseBytes) + SizeOf(chunks[..i]) && error == old(error)
        invariant Fold(py, start, SplitBlocks(TextOf(chunks[..i])).blocks) == Running(usage)
        invariant buffer == SplitBlocks(TextOf(chunks[..i])).rest
      {
        var chunk := chunks[i];
        assert chunks[..i + 1][..i] == chunks[..i];
        AppendSplit(TextOf(chunks[..i]), chunk.text);
        FoldConcat(py, start, SplitBlocks(TextOf(chunks[..i])).blocks, SplitBlocks(buffer + chunk.text).blocks);
        responseBytes := responseBytes + chunk.size;
        buffer, raised := DrainBlocks(py, buffer + chunk.text);
        if raised {
          RaisedWhole(py, start, chunks, i + 1, httpError.None?);
          return;
        }
        sent := sent + [chunk];
      }
      assert chunks[..|chunks|] == chunks;
      if httpError.Some? {
        error := httpError;
        return;
      }
      if buffer != "" {
        var next := UpdateUsage(py, buffer, usage);
        usage := next.usage;
        raised := next.Raised?;
      }
    }
  }

  lemma FoldNothing(py: Python, s: Scan)
    ensures Fold(py, s, []) == s
  {
  }

  lemma NothingLeft(s: string)
    requires FirstBreak(s).None?
    ensures SplitBlocks(s) == Split([], s)
  {
  }

  lemma NothingYet(py: Python, s: Scan)
    ensures Fold(py, s, SplitBlocks(TextOf([])).blocks) == s && SplitBlocks(TextOf([])).rest == ""
  {
  }

  lemma {:induction false} FoldConcat(py: Python, s: Scan, a: seq<string>, b: seq<string>)
    ensures Fold(py, s, a + b) == Fold(py, Fold(py, s, a), b)
    decreases |b|
  {
    hide Step;
    if b == [] {
      assert a + b == a;
    } else {
      var init, last := b[..|b| - 1], b[|b| - 1];
      assert a + b == (a + init) + [last] && b == init + [last];
      FoldConcat(py, s, a, init);
      FoldMore(py, s, a + init, last);
      FoldMore(py, Fold(py, s, a), init, last);
    }
  }

  lemma {:induction false} TextSplits(chunks: seq<Chunk>, n: nat)
    requires n <= |chunks|
    ensures exists more :: TextOf(chunks) == TextOf(chunks[..n]) + more
    decreases |chunks| - n
  {
    if n == |chunks| {
      assert chunks[..n] == chunks && TextOf(chunks) == TextOf(chunks[..n]) + "";
    } else {
      TextSplits(chunks, n + 1);
      var more :| TextOf(chunks) == TextOf(chunks[..n + 1]) + more;
      assert chunks[..n + 1][..n] == chunks[..n];
      assert TextOf(chunks) == TextOf(chunks[..n]) + (chunks[n].text + more);
    }
  }

  /** An exception in an early chunk is the outcome of the whole text. */
  lemma RaisedWhole(py: Python, start: Scan, chunks: seq<Chunk>, n: nat, complete: bool)
    requires n <= |chunks| && start.Running? && Fold(py, start, SplitBlocks(TextOf(chunks[..n])).blocks).Raised?
    ensures Scanned(py, start.usage, TextOf(chunks), complete)
         == Fold(py, start, SplitBlocks(TextOf(chunks[..n])).blocks)
  {
    hide SplitBlocks, Fold, ReadBlock;
    TextSplits(chunks, n);
    var more :| TextOf(chunks) == TextOf(chunks[..n]) + more;
    var first := SplitBlocks(TextOf(chunks[..n]));
    AppendSplit(TextOf(chunks[..n]), more);
    RaisedStays(py, start, first.blocks, SplitBlocks(first.rest + more).blocks);
  }
}

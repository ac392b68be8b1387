/** procfs/cpu_stat.go: the /proc/stat reader, its clock-tick scaling and the totals taken from it. */
module CpuStat {
  import opened Prelude
  import opened Decimal
  import opened Text

  const NANOSECONDS_PER_SECOND := 1_000_000_000

  datatype SingleCPUStat = SingleCPUStat(
    name: string, user: I64, nice: I64, system: I64, idle: I64, ioWait: I64,
    irq: I64, softIRQ: I64, steal: I64, guest: I64, guestNice: I64)
  {
    function Times(): seq<I64> {
      [user, nice, system, idle, ioWait, irq, softIRQ, steal, guest, guestNice]
    }

    function Sum(): I64 {
      WrappingSum(Times())
    }
  }

  /** Go adds durations from left to right, wrapping each partial sum. */
  function WrappingSum(times: seq<I64>): I64 {
    if times == [] then 0 else WrapI(WrappingSum(Front(times)) + Last(times))
  }

  const ZERO_CPU := SingleCPUStat("", 0, 0, 0, 0, 0, 0, 0, 0, 0, 0)

  type CPUStats = map<string, SingleCPUStat>

  function All(stats: CPUStats): SingleCPUStat {
    Get(stats, "cpu", ZERO_CPU)
  }

  // ----- Scanning one line: fmt.Sscanf with "%s" followed by ten "%d"

  /** Skips the spacing of one line; a newline stops it. */
  function SkipBlanks(s: string): (r: string)
    ensures |r| <= |s|
  {
    if s != "" && IsSpace(s[0]) && s[0] != '\n' then SkipBlanks(s[1..]) else s
  }

  function DigitRun(s: string): (d: string)
    ensures d <= s && AllDigits(d)
  {
    if s != "" && IsDigit(s[0]) then [s[0]] + DigitRun(s[1..]) else ""
  }

  /** n numbers, each preceded by at least one blank on the same line. */
  function ScanNumbers(s: string, n: nat): (r: Option<seq<U64>>)
    ensures r.Some? ==> |r.value| == n
    decreases n
  {
    if n == 0 then Some([])
    else
      var t := SkipBlanks(s);
      var digits := DigitRun(t);
      var number := ParseUint(digits);
      if |t| == |s| || number.None? then None
      else
        var rest := ScanNumbers(t[|digits|..], n - 1);
        if rest.None? then None else Some([number.value] + rest.value)
  }

  /** The name and the ten raw counters of a line, or None where Sscanf reports an error. */
  function ScanCPULine(line: string): (r: Option<(string, seq<U64>)>)
    ensures r.Some? ==> |r.value.1| == 10
  {
    var t := SkipBlanks(line);
    var name := Word(t);
    var numbers := ScanNumbers(t[|name|..], 10);
    if name == "" || numbers.None? then None else Some((name, numbers.value))
  }

  // ----- Scaling

  /** The nanoseconds of one clock tick, truncated. */
  function ScaleFactor(userHZ: I64): I64
    requires userHZ > 0
  {
    NANOSECONDS_PER_SECOND / userHZ
  }

  /** time.Duration(raw) * scale: both the conversion and the product wrap. */
  function DurationTimes(raw: U64, scale: I64): I64 {
    WrapI(WrapI(raw) * scale)
  }

  function ScaledAll(raw: seq<U64>, scale: I64): (times: seq<I64>)
    ensures |times| == |raw|
    ensures forall i :: 0 <= i < |raw| ==> times[i] == DurationTimes(raw[i], scale)
  {
    seq(|raw|, i requires 0 <= i < |raw| => DurationTimes(raw[i], scale))
  }

  /** The struct whose fields are these ten durations, in the order of the file. */
  function StatOfTimes(name: string, times: seq<I64>): (stat: SingleCPUStat)
    requires |times| == 10
    ensures stat.name == name && stat.Times() == times
  {
    SingleCPUStat(name, times[0], times[1], times[2], times[3], times[4],
                  times[5], times[6], times[7], times[8], times[9])
  }

  function StatOf(name: string, raw: seq<U64>, scale: I64): SingleCPUStat
    requires |raw| == 10
  {
    StatOfTimes(name, ScaledAll(raw, scale))
  }

  /** The conversion loop of readOneCPULine: fills a buffer of durations from the raw counters. */
  method ConvertBuffer(rawBuffer: seq<U64>, scaleFactor: I64) returns (times: seq<I64>)
    ensures times == ScaledAll(rawBuffer, scaleFactor)
  {
    var timeBuffer := new I64[|rawBuffer|];
    for i := 0 to |rawBuffer|
      invariant forall j :: 0 <= j < i ==> timeBuffer[j] == DurationTimes(rawBuffer[j], scaleFactor)
    {
      timeBuffer[i] := DurationTimes(rawBuffer[i], scaleFactor);
    }
    return timeBuffer[..];
  }

  method ReadOneCPULine(line: string, userHZ: I64) returns (r: Option<SingleCPUStat>)
    requires userHZ > 0
    ensures r == var scanned := ScanCPULine(line);
                 if scanned.None? then None else Some(StatOf(scanned.value.0, scanned.value.1, ScaleFactor(userHZ)))
  {
    var scanned := ScanCPULine(line);
    if scanned.None? {
      return None;
    }
    var times := ConvertBuffer(scanned.value.1, ScaleFactor(userHZ));
    return Some(StatOfTimes(scanned.value.0, times));
  }

  /** The result of the reading loop started on text with acc; None is a malformed cpu line. */
  function ParseFrom(text: string, acc: CPUStats, scale: I64): Option<CPUStats>
    decreases |text|
  {
    var next := ReadString(text);
    if next.None? then Some(acc)
    else if !("cpu" <= next.value.0) then ParseFrom(next.value.1, acc, scale)
    else
      var scanned := ScanCPULine(next.value.0);
      if scanned.None? then None
      else
        var stat := StatOf(scanned.value.0, scanned.value.1, scale);
        ParseFrom(next.value.1, acc[stat.name := stat], scale)
  }

  method Read(text: string, userHZ: I64) returns (r: Option<CPUStats>)
    requires userHZ > 0
    ensures r == ParseFrom(text, map[], ScaleFactor(userHZ))
  {
    var cpus: CPUStats := map[];
    var rest := text;
    var next := ReadString(rest);
    while next.Some?
      invariant next == ReadString(rest)
      invariant ParseFrom(rest, cpus, ScaleFactor(userHZ)) == ParseFrom(text, map[], ScaleFactor(userHZ))
      decreases |rest|
    {
      if "cpu" <= next.value.0 {
        var stat := ReadOneCPULine(next.value.0, userHZ);
        if stat.None? {
          return None;
        }
        cpus := cpus[stat.value.name := stat.value];
      }
      rest := next.value.1;
      next := ReadString(rest);
    }
    return Some(cpus);
  }

  // ----- What the file says, independently of the parser

  /** A line of /proc/stat: the counters of a cpu, each with the spacing before it, or anything else. */
  datatype Line =
    | Counters(name: string, gaps: seq<string>, values: seq<U64>, trail: string)
    | Other(text: string)

  predicate WellFormed(l: Line) {
    match l
    case Counters(name, gaps, values, trail) =>
      && "cpu" <= name && NoSpace(name) && |gaps| == |values| == 10
      && (forall i :: 0 <= i < 10 ==> gaps[i] != "" && IsBlank(gaps[i]))
      && '\n' !in trail && (trail != "" ==> !IsDigit(trail[0]))
    case Other(text) => '\n' !in text && !("cpu" <= text)
  }

  function RenderNumbers(gaps: seq<string>, values: seq<U64>, trail: string): string
    requires |gaps| == |values|
  {
    if gaps == [] then trail
    else gaps[0] + (FormatUint(values[0]) + RenderNumbers(gaps[1..], values[1..], trail))
  }

  function Render(l: Line): string
    requires WellFormed(l)
  {
    match l
    case Counters(name, gaps, values, trail) => name + RenderNumbers(gaps, values, trail)
    case Other(text) => text
  }

  function RenderAll(lines: seq<Line>, tail: string): string
    requires forall l :: l in lines ==> WellFormed(l)
  {
    if lines == [] then tail else Render(lines[0]) + "\n" + RenderAll(lines[1..], tail)
  }

  /** The last counters the file gives for this cpu. */
  function LastCounters(lines: seq<Line>, name: string): (r: Option<seq<U64>>)
    requires forall l :: l in lines ==> WellFormed(l)
    ensures r.Some? ==> |r.value| == 10
  {
    if lines == [] then None
    else if Last(lines).Counters? && Last(lines).name == name then
      assert WellFormed(Last(lines));
      Some(Last(lines).values)
    else LastCounters(Front(lines), name)
  }

  lemma {:induction false} SkipBlanksOver(gap: string, rest: string)
    requires IsBlank(gap)
    requires rest == "" || !IsSpace(rest[0])
    ensures SkipBlanks(gap + rest) == rest
  {
    if gap == "" {
      assert gap + rest == rest;
    } else {
      assert (gap + rest)[1..] == gap[1..] + rest;
      SkipBlanksOver(gap[1..], rest);
    }
  }

  lemma {:induction false} DigitRunOver(digits: string, rest: string)
    requires AllDigits(digits)
    requires rest == "" || !IsDigit(rest[0])
    ensures DigitRun(digits + rest) == digits
  {
    if digits == "" {
      assert digits + rest == rest;
    } else {
      assert (digits + rest)[1..] == digits[1..] + rest;
      DigitRunOver(digits[1..], rest);
    }
  }

  /** Scanning takes off one number, whatever spacing precedes it. */
  lemma ScanOne(gap: string, n: U64, rest: string, count: nat)
    requires gap != "" && IsBlank(gap) && (rest == "" || !IsDigit(rest[0]))
    requires ScanNumbers(rest, count).Some?
    ensures ScanNumbers(gap + (FormatUint(n) + rest), count + 1) == Some([n] + ScanNumbers(rest, count).value)
  {
    var digits := FormatUint(n);
    FormatIsCanonical(n);
    ParseInvertsFormat(n);
    assert (digits + rest)[0] == digits[0] && IsDigit(digits[0]);
    SkipBlanksOver(gap, digits + rest);
    DigitRunOver(digits, rest);
    assert (digits + rest)[|digits|..] == rest;
  }

  /** Rendered numbers begin with a blank, so that no digit before them is continued. */
  lemma NumbersBegin(gaps: seq<string>, values: seq<U64>, trail: string)
    requires |gaps| == |values|
    requires forall i :: 0 <= i < |gaps| ==> gaps[i] != "" && IsBlank(gaps[i])
    requires trail == "" || !IsDigit(trail[0])
    ensures RenderNumbers(gaps, values, trail) == "" || !IsDigit(RenderNumbers(gaps, values, trail)[0])
  {
    if gaps != [] {
      assert RenderNumbers(gaps, values, trail)[0] == gaps[0][0] && IsSpace(gaps[0][0]);
    }
  }

  lemma {:induction false} RenderedNumbersScan(gaps: seq<string>, values: seq<U64>, trail: string)
    requires |gaps| == |values|
    requires forall i :: 0 <= i < |gaps| ==> gaps[i] != "" && IsBlank(gaps[i])
    requires trail == "" || !IsDigit(trail[0])
    ensures ScanNumbers(RenderNumbers(gaps, values, trail), |values|) == Some(values)
  {
    if gaps != [] {
      var rest := RenderNumbers(gaps[1..], values[1..], trail);
      RenderedNumbersScan(gaps[1..], values[1..], trail);
      NumbersBegin(gaps[1..], values[1..], trail);
      ScanOne(gaps[0], values[0], rest, |values| - 1);
      assert [values[0]] + values[1..] == values;
    }
  }

  lemma {:induction false} RenderedNumbersOnOneLine(gaps: seq<string>, values: seq<U64>, trail: string)
    requires |gaps| == |values|
    requires forall i :: 0 <= i < |gaps| ==> IsBlank(gaps[i])
    requires '\n' !in trail
    ensures '\n' !in RenderNumbers(gaps, values, trail)
  {
    if gaps != [] {
      RenderedNumbersOnOneLine(gaps[1..], values[1..], trail);
      FormatIsCanonical(values[0]);
    }
  }

  /** Replacing the end of a line's trail does not disturb the numbers before it. */
  lemma {:induction false} RenderNumbersAppend(gaps: seq<string>, values: seq<U64>, trail: string, more: string)
    requires |gaps| == |values|
    ensures RenderNumbers(gaps, values, trail) + more == RenderNumbers(gaps, values, trail + more)
  {
    if gaps != [] {
      var rest := RenderNumbers(gaps[1..], values[1..], trail);
      RenderNumbersAppend(gaps[1..], values[1..], trail, more);
      assert gaps[0] + (FormatUint(values[0]) + rest) + more == gaps[0] + (FormatUint(values[0]) + (rest + more));
    }
  }

  lemma RenderedLineScans(l: Line)
    requires WellFormed(l) && l.Counters?
    ensures ScanCPULine(Render(l) + "\n") == Some((l.name, l.values))
    ensures "cpu" <= Render(l) + "\n"
  {
    var numbers := RenderNumbers(l.gaps, l.values, l.trail + "\n");
    RenderNumbersAppend(l.gaps, l.values, l.trail, "\n");
    assert Render(l) + "\n" == l.name + numbers;
    RenderedNumbersScan(l.gaps, l.values, l.trail + "\n");
    assert numbers[0] == l.gaps[0][0];
    assert !IsSpace(l.name[0]);
    WordOver(l.name, numbers);
    assert (l.name + numbers)[|l.name|..] == numbers;
  }

  lemma RenderedOnOneLine(l: Line)
    requires WellFormed(l)
    ensures '\n' !in Render(l)
    ensures l.Other? ==> !("cpu" <= Render(l) + "\n")
  {
    if l.Counters? {
      RenderedNumbersOnOneLine(l.gaps, l.values, l.trail);
      assert forall i :: 0 <= i < |l.name| ==> !IsSpace(l.name[i]);
    } else {
      var line := l.text + "\n";
      assert forall i :: 0 <= i < |l.text| ==> line[i] == l.text[i];
      assert line[|l.text|] == '\n';
    }
  }

  /** What the table must hold for name when it started as acc. */
  function Expected(lines: seq<Line>, acc: CPUStats, name: string, scale: I64): Option<SingleCPUStat>
    requires forall l :: l in lines ==> WellFormed(l)
  {
    var counters := LastCounters(lines, name);
    if counters.Some? then Some(StatOf(name, counters.value, scale))
    else if name in acc then Some(acc[name]) else None
  }

  lemma {:induction false} ExpectedCons(lines: seq<Line>, acc: CPUStats, name: string, scale: I64)
    requires lines != [] && forall l :: l in lines ==> WellFormed(l)
    ensures WellFormed(lines[0])
    ensures Expected(lines, acc, name, scale) ==
            Expected(lines[1..], if lines[0].Other? then acc
                                 else acc[lines[0].name := StatOf(lines[0].name, lines[0].values, scale)],
                     name, scale)
  {
    if |lines| > 1 {
      assert Front(lines)[1..] == Front(lines[1..]);
      assert Last(lines) == Last(lines[1..]);
      ExpectedCons(Front(lines), acc, name, scale);
    } else {
      assert Front(lines) == [];
    }
  }

  /** Round trip: the table read from a rendered file has one entry per cpu named in it, built from its
      last line; other lines and an unterminated last line have no influence. */
  lemma {:induction false} RenderedFileParses(lines: seq<Line>, tail: string, acc: CPUStats, scale: I64)
    requires forall l :: l in lines ==> WellFormed(l)
    requires '\n' !in tail
    ensures var r := ParseFrom(RenderAll(lines, tail), acc, scale);
      r.Some? && forall name: string ::
        (if name in r.value then Some(r.value[name]) else None) == Expected(lines, acc, name, scale)
  {
    if lines == [] {
      assert ReadString(tail).None?;
    } else {
      var l, rest := lines[0], RenderAll(lines[1..], tail);
      RenderedOnOneLine(l);
      ReadStringLine(Render(l), rest);
      if l.Counters? {
        RenderedLineScans(l);
      }
      var acc' := if l.Other? then acc else acc[l.name := StatOf(l.name, l.values, scale)];
      RenderedFileParses(lines[1..], tail, acc', scale);
      forall name: string ensures Expected(lines, acc, name, scale) == Expected(lines[1..], acc', name, scale) {
        ExpectedCons(lines, acc, name, scale);
      }
    }
  }

  // ----- Totals and truncation

  function Total(raw: seq<U64>): nat {
    if raw == [] then 0 else Total(Front(raw)) + Last(raw) as nat
  }

  lemma DurationTimesWraps(raw: U64, scale: I64)
    ensures DurationTimes(raw, scale) == WrapI(scale * raw)
  {
    var k := WrapIMultiple(raw);
    assert WrapI(raw) * scale == scale * raw + 0x1_0000_0000_0000_0000 * (k * scale);
    WrapIShift(scale * raw, WrapI(raw) * scale, k * scale);
  }

  function SumOf(products: seq<int>): int {
    if products == [] then 0 else SumOf(Front(products)) + Last(products)
  }

  /** Summing wrapped terms with wrapping additions is wrapping the exact sum once. */
  lemma {:induction false} WrappingSumOfWrapped(times: seq<I64>, products: seq<int>)
    requires |times| == |products|
    requires forall i :: 0 <= i < |times| ==> times[i] == WrapI(products[i])
    ensures WrappingSum(times) == WrapI(SumOf(products))
  {
    if times != [] {
      WrappingSumOfWrapped(Front(times), Front(products));
      WrapIAdd(SumOf(Front(products)), Last(products));
    }
  }

  lemma {:induction false} SumOfMultiples(raw: seq<U64>, scale: int, products: seq<int>)
    requires |raw| == |products|
    requires forall i :: 0 <= i < |raw| ==> products[i] == scale * raw[i]
    ensures SumOf(products) == scale * Total(raw)
  {
    if raw != [] {
      SumOfMultiples(Front(raw), scale, Front(products));
      assert scale * (Total(Front(raw)) + Last(raw) as nat) == scale * Total(Front(raw)) + scale * Last(raw);
    }
  }

  /** The sum of a scaled line is the scale times the raw total, in the wrapping arithmetic of int64 and
      therefore exactly whenever that product fits. */
  lemma SumIsScaledTotal(name: string, raw: seq<U64>, scale: I64)
    requires |raw| == 10
    ensures StatOf(name, raw, scale).Sum() == WrapI(scale * Total(raw))
    ensures 0 <= scale * Total(raw) < 0x8000_0000_0000_0000 ==> StatOf(name, raw, scale).Sum() == scale * Total(raw)
  {
    var products: seq<int> := seq(10, i requires 0 <= i < 10 => scale * raw[i]);
    forall i | 0 <= i < 10 ensures ScaledAll(raw, scale)[i] == WrapI(products[i]) {
      DurationTimesWraps(raw[i], scale);
    }
    WrappingSumOfWrapped(ScaledAll(raw, scale), products);
    SumOfMultiples(raw, scale, products);
  }

  lemma LossArithmetic(raw: nat, hz: int, scale: int, rem: int)
    requires 0 <= rem < hz
    ensures raw * (hz * scale + rem) - hz * (scale * raw) == raw * rem
    ensures 0 <= raw * rem && (raw * rem == 0 <==> raw == 0 || rem == 0)
    ensures raw > 0 ==> raw * rem < raw * hz
  {
    assert raw * (hz * scale) == hz * (scale * raw);
  }

  /** Truncating the scale loses less than one nanosecond per tick of a counter, and loses nothing
      exactly when the tick rate divides a second (or the counter is zero). Times are compared after
      multiplying by the tick rate, so the exact duration is raw * 10^9. */
  lemma TruncationLoss(raw: U64, userHZ: I64, scale: I64, loss: int)
    requires 0 < userHZ && scale == ScaleFactor(userHZ)
    requires 0 <= scale * raw < 0x8000_0000_0000_0000
    requires loss == raw * NANOSECONDS_PER_SECOND - userHZ * DurationTimes(raw, scale)
    ensures 0 <= loss
    ensures raw > 0 ==> loss < raw * userHZ
    ensures loss == 0 <==> raw == 0 || NANOSECONDS_PER_SECOND % userHZ == 0
  {
    DurationTimesWraps(raw, scale);
    var rem := NANOSECONDS_PER_SECOND % userHZ;
    assert NANOSECONDS_PER_SECOND == userHZ * scale + rem;
    LossOfScaling(raw, userHZ, scale, rem, loss);
  }

  lemma LossOfScaling(raw: nat, hz: int, scale: int, rem: int, loss: int)
    requires 0 <= rem < hz && NANOSECONDS_PER_SECOND == hz * scale + rem
    requires loss == raw * NANOSECONDS_PER_SECOND - hz * (scale * raw)
    ensures 0 <= loss && (raw > 0 ==> loss < raw * hz) && (loss == 0 <==> raw == 0 || rem == 0)
  {
    LossArithmetic(raw, hz, scale, rem);
  }

  // ----- The aggregate line and its fields

  /** The sample holds these ten counters, each in the field it belongs to. */
  predicate Holds(c: SingleCPUStat, raw: seq<U64>, scale: I64)
    requires |raw| == 10
  {
    && c.user == WrapI(scale * raw[0]) && c.nice == WrapI(scale * raw[1]) && c.system == WrapI(scale * raw[2])
    && c.idle == WrapI(scale * raw[3]) && c.ioWait == WrapI(scale * raw[4]) && c.irq == WrapI(scale * raw[5])
    && c.softIRQ == WrapI(scale * raw[6]) && c.steal == WrapI(scale * raw[7])
    && c.guest == WrapI(scale * raw[8]) && c.guestNice == WrapI(scale * raw[9])
  }

  lemma StatHolds(name: string, raw: seq<U64>, scale: I64)
    requires |raw| == 10
    ensures StatOf(name, raw, scale).name == name && Holds(StatOf(name, raw, scale), raw, scale)
  {
    forall i | 0 <= i < 10 ensures ScaledAll(raw, scale)[i] == WrapI(scale * raw[i]) {
      DurationTimesWraps(raw[i], scale);
    }
  }

  /** What All takes from a rendered file: the counters of the last line named cpu, field by field, and zeros when
      there is none. */
  lemma AllOfRenderedFile(lines: seq<Line>, tail: string, scale: I64)
    requires forall l :: l in lines ==> WellFormed(l)
    requires '\n' !in tail
    ensures var r := ParseFrom(RenderAll(lines, tail), map[], scale);
      && r.Some?
      && var counters := LastCounters(lines, "cpu");
      if counters.Some? then All(r.value).name == "cpu" && Holds(All(r.value), counters.value, scale)
      else Holds(All(r.value), [0, 0, 0, 0, 0, 0, 0, 0, 0, 0], scale)
  {
    RenderedFileParses(lines, tail, map[], scale);
    ExpectedOfCPU(lines, scale, All(ParseFrom(RenderAll(lines, tail), map[], scale).value));
  }

  lemma ExpectedOfCPU(lines: seq<Line>, scale: I64, c: SingleCPUStat)
    requires forall l :: l in lines ==> WellFormed(l)
    requires var expected := Expected(lines, map[], "cpu", scale);
      c == if expected.Some? then expected.value else ZERO_CPU
    ensures var counters := LastCounters(lines, "cpu");
      if counters.Some? then c.name == "cpu" && Holds(c, counters.value, scale)
      else Holds(c, [0, 0, 0, 0, 0, 0, 0, 0, 0, 0], scale)
  {
    if LastCounters(lines, "cpu").Some? {
      StatHolds("cpu", LastCounters(lines, "cpu").value, scale);
    }
  }

  /** The spacing of a plain line: blanks and tabs. */
  lemma PlainCountersAreWellFormed(name: string, gaps: seq<string>, values: seq<U64>, trail: string)
    requires "cpu" <= name && (forall i :: 0 <= i < |name| ==> '!' <= name[i] <= '~')
    requires |gaps| == |values| == 10 && (forall i :: 0 <= i < 10 ==> gaps[i] != "")
    requires forall i, j :: 0 <= i < 10 && 0 <= j < |gaps[i]| ==> gaps[i][j] == ' ' || gaps[i][j] == '\t'
    requires forall i :: 0 <= i < |trail| ==> trail[i] == ' ' || trail[i] == '\t'
    ensures WellFormed(Counters(name, gaps, values, trail))
  {
    forall i | 0 <= i < 10 ensures IsBlank(gaps[i]) {
      SpacingOfText(gaps[i], name);
    }
    SpacingOfText(trail, name);
  }

  // ----- Any text whatever

  /** Numbers as they may stand on a line: each with the blanks before it, and what follows them. */
  function Spell(gaps: seq<string>, digits: seq<string>, rest: string): string
    requires |gaps| == |digits|
  {
    if gaps == [] then rest else gaps[0] + digits[0] + Spell(gaps[1..], digits[1..], rest)
  }

  predicate Spells(gaps: seq<string>, digits: seq<string>, values: seq<U64>) {
    && |gaps| == |digits| == |values|
    && (forall i :: 0 <= i < |gaps| ==> gaps[i] != "" && IsBlank(gaps[i]))
    && (forall i :: 0 <= i < |digits| ==> digits[i] != "" && AllDigits(digits[i]) && Value(digits[i]) == values[i])
  }

  lemma {:induction false} SkippedBlanks(s: string) returns (gap: string)
    ensures s == gap + SkipBlanks(s) && IsBlank(gap)
  {
    if s != "" && IsSpace(s[0]) && s[0] != '\n' {
      var rest := SkippedBlanks(s[1..]);
      gap := [s[0]] + rest;
      assert s == [s[0]] + s[1..];
    } else {
      gap := "";
    }
  }

  /** Whatever is scanned as n numbers is n blank-separated digit strings with these values. */
  lemma {:induction false} ScannedNumbersAreSpelled(s: string, n: nat)
    returns (gaps: seq<string>, digits: seq<string>, rest: string)
    requires ScanNumbers(s, n).Some?
    ensures |gaps| == |digits| == n && Spells(gaps, digits, ScanNumbers(s, n).value) && s == Spell(gaps, digits, rest)
    decreases n
  {
    if n == 0 {
      gaps, digits, rest := [], [], s;
    } else {
      var gap := SkippedBlanks(s);
      var t := SkipBlanks(s);
      var run := DigitRun(t);
      var values := ScanNumbers(s, n).value;
      gaps, digits, rest := ScannedNumbersAreSpelled(t[|run|..], n - 1);
      assert values[1..] == ScanNumbers(t[|run|..], n - 1).value;
      assert s == gap + run + t[|run|..];
      SpellOneMore(gap, run, gaps, digits, rest, values[0], values[1..]);
      assert values == [values[0]] + values[1..];
      gaps, digits := [gap] + gaps, [run] + digits;
    }
  }

  lemma SpellOneMore(gap: string, run: string, gaps: seq<string>, digits: seq<string>, rest: string,
                     value: U64, values: seq<U64>)
    requires Spells(gaps, digits, values) && gap != "" && IsBlank(gap)
    requires run != "" && AllDigits(run) && Value(run) == value
    ensures Spells([gap] + gaps, [run] + digits, [value] + values)
    ensures Spell([gap] + gaps, [run] + digits, rest) == gap + run + Spell(gaps, digits, rest)
  {
    assert ([gap] + gaps)[1..] == gaps && ([run] + digits)[1..] == digits;
  }

  /** For any text whatever: reading fails if and only if one of the complete lines begins like a cpu line and does
      not scan. */
  lemma {:induction false} FailsIffBadCPULine(text: string, acc: CPUStats, scale: I64)
    ensures ParseFrom(text, acc, scale).None? <==>
      exists line :: line in Lines(text) && "cpu" <= line && ScanCPULine(line).None?
    decreases |text|
  {
    var next := ReadString(text);
    if next.Some? {
      var line := next.value.0;
      assert line in Lines(text) && Lines(text)[1..] == Lines(next.value.1);
      forall l | l in Lines(next.value.1) ensures l in Lines(text) {
      }
      if !("cpu" <= line) {
        FailsIffBadCPULine(next.value.1, acc, scale);
      } else if ScanCPULine(line).Some? {
        var stat := StatOf(ScanCPULine(line).value.0, ScanCPULine(line).value.1, scale);
        FailsIffBadCPULine(next.value.1, acc[stat.name := stat], scale);
      }
    }
  }
}

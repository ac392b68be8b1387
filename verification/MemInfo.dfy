/** procfs/meminfo.go: the line parser of /proc/meminfo and the tagged struct it fills. */
module MemInfo {
  import opened Prelude
  import opened Decimal
  import opened Text

  /** The meminfo_header tags of the struct's fields, in declaration order. */
  const TAGS: seq<string> := [
    "MemTotal", "MemFree", "Buffers", "Cached", "SwapCached", "Active", "Inactive",
    "Active(anon)", "Inactive(anon)", "Active(file)", "Inactive(file)", "Unevictable", "Mlocked",
    "SwapTotal", "SwapFree", "Dirty", "Writeback", "AnonPages", "Mapped", "Slab", "SReclaimable",
    "SUnreclaim", "PurgeTables", "NFS_Unstable", "Bounce", "WritebackTmp", "CommitLimit",
    "Committed_AS", "VmallocTotal", "VmallocUsed", "VmallocChunk", "DirectMap4k", "DirectMap2M",
    "DirectMap1G"]

  /** Read either fills the struct or gives up on a malformed line; the error value it gives up
      with is built by a library and is not part of this model. */
  datatype Outcome<+T> = Filled(value: T) | Malformed

  type Values = map<string, U64>

  function TrimColon(s: string): string {
    if s != "" && Last(s) == ':' then Front(s) else s
  }

  /** One iteration of the loop: the header and the value it stores. */
  function ParseLine(line: string): Outcome<(string, U64)> {
    var fields := Fields(line);
    if |fields| < 2 then Malformed
    else
      var value := ParseUint(fields[1]);
      if value.None? then Malformed
      else if |fields| == 3 then
        if fields[2] == "kB" then Filled((TrimColon(fields[0]), WrapU(value.value * 1024))) else Malformed
      else Filled((TrimColon(fields[0]), value.value))
  }

  /** The map that the loop leaves when it starts on text with acc. */
  function ParseFrom(text: string, acc: Values): Outcome<Values>
    decreases |text|
  {
    var next := ReadString(text);
    if next.None? then Filled(acc)
    else
      var parsed := ParseLine(next.value.0);
      if parsed.Malformed? then Malformed
      else ParseFrom(next.value.1, acc[parsed.value.0 := parsed.value.1])
  }

  function FieldValues(values: Values): seq<U64> {
    seq(|TAGS|, i requires 0 <= i < |TAGS| => Get(values, TAGS[i], 0))
  }

  function ReadText(text: string): Outcome<seq<U64>> {
    var values := ParseFrom(text, map[]);
    if values.Malformed? then Malformed else Filled(FieldValues(values.value))
  }

  method Read(text: string) returns (r: Outcome<seq<U64>>)
    ensures r == ReadText(text)
  {
    var results: Values := map[];
    var rest := text;
    var next := ReadString(rest);
    while next.Some?
      invariant next == ReadString(rest)
      invariant ParseFrom(rest, results) == ParseFrom(text, map[])
      decreases |rest|
    {
      var parsed := ParseLine(next.value.0);
      if parsed.Malformed? {
        return Malformed;
      }
      results := results[parsed.value.0 := parsed.value.1];
      rest := next.value.1;
      next := ReadString(rest);
    }
    var info := FillStruct(results);
    return Filled(info);
  }

  method FillStruct(values: Values) returns (info: seq<U64>)
    ensures info == FieldValues(values)
  {
    info := seq(|TAGS|, i => 0);
    for i := 0 to |TAGS|
      invariant |info| == |TAGS|
      invariant forall j :: 0 <= j < i ==> info[j] == Get(values, TAGS[j], 0)
      invariant forall j :: i <= j < |TAGS| ==> info[j] == 0
    {
      if TAGS[i] in values {
        info := info[i := values[TAGS[i]]];
      }
    }
  }

  // ----- What the file says, independently of the parser

  /** One well-formed line: a header, a value with or without the kB unit, and the spacing around them. */
  datatype Entry = Entry(header: string, value: U64, kB: bool,
                         lead: string, gap: string, unitGap: string, trail: string)

  predicate WellFormed(e: Entry) {
    && NoSpace(e.header) && IsBlank(e.lead) && IsBlank(e.trail)
    && e.gap != "" && IsBlank(e.gap) && e.unitGap != "" && IsBlank(e.unitGap)
  }

  /** A rendered line without its newline. */
  function Render(e: Entry): string {
    e.lead + e.header + ":" + e.gap + FormatUint(e.value) + (if e.kB then e.unitGap + "kB" else "") + e.trail
  }

  function RenderAll(entries: seq<Entry>, tail: string): string {
    if entries == [] then tail else Render(entries[0]) + "\n" + RenderAll(entries[1..], tail)
  }

  /** The quantity an entry reports, in bytes when it has a unit. */
  function Quantity(e: Entry): U64 {
    if e.kB then WrapU(e.value * 1024) else e.value
  }

  /** The quantity of the last entry with this header, or otherwise. */
  function LastQuantity(entries: seq<Entry>, header: string, otherwise: U64): U64 {
    if entries == [] then otherwise
    else if Last(entries).header == header then Quantity(Last(entries))
    else LastQuantity(Front(entries), header, otherwise)
  }

  lemma FormatIsWord(n: nat)
    ensures IsWord(FormatUint(n)) && '\n' !in FormatUint(n)
  {
    FormatIsCanonical(n);
    var s := FormatUint(n);
    forall i | 0 <= i < |s| ensures !IsSpace(s[i]) {
      assert IsDigit(s[i]);
    }
  }

  /** The value, the optional unit and the end of a rendered line. */
  function RenderTail(e: Entry): string {
    e.gap + FormatUint(e.value) + (if e.kB then e.unitGap + "kB" + (e.trail + "\n") else e.trail + "\n")
  }

  lemma RenderedTailFields(e: Entry)
    requires WellFormed(e)
    ensures Fields(RenderTail(e)) == [FormatUint(e.value)] + (if e.kB then ["kB"] else [])
  {
    FormatIsWord(e.value);
    var end := e.trail + "\n";
    FieldsOfBlank(end);
    if e.kB {
      FieldsCons(e.unitGap, "kB", end);
      FieldsCons(e.gap, FormatUint(e.value), e.unitGap + "kB" + end);
    } else {
      FieldsCons(e.gap, FormatUint(e.value), end);
    }
  }

  lemma RenderedFields(e: Entry)
    requires WellFormed(e)
    ensures Fields(Render(e) + "\n")
         == [e.header + ":", FormatUint(e.value)] + (if e.kB then ["kB"] else [])
  {
    RenderedTailFields(e);
    TailBegins(e);
    FieldsCons(e.lead, e.header + ":", RenderTail(e));
    RenderSplits(e);
  }

  lemma TailBegins(e: Entry)
    requires WellFormed(e)
    ensures RenderTail(e) != "" && IsSpace(RenderTail(e)[0])
  {
    assert RenderTail(e)[0] == e.gap[0];
  }

  lemma RenderSplits(e: Entry)
    ensures Render(e) + "\n" == e.lead + (e.header + ":") + RenderTail(e)
  {
    var start, value := e.lead + (e.header + ":"), e.gap + FormatUint(e.value);
    assert e.lead + e.header + ":" == start;
    if e.kB {
      assert Render(e) + "\n" == start + (value + (e.unitGap + "kB" + (e.trail + "\n")));
    } else {
      assert Render(e) + "\n" == start + (value + (e.trail + "\n"));
    }
  }

  lemma RenderedOnOneLine(e: Entry)
    requires WellFormed(e)
    ensures '\n' !in Render(e)
  {
    FormatIsWord(e.value);
  }

  lemma RenderedLineParses(e: Entry)
    requires WellFormed(e)
    ensures ParseLine(Render(e) + "\n") == Filled((e.header, Quantity(e)))
  {
    RenderedFields(e);
    ParseInvertsFormat(e.value);
    FrontOfAppend(e.header, ':');
  }

  /** The parser's map holds, for every header, the last quantity the file gives it. */
  lemma {:induction false} RenderedFileParses(entries: seq<Entry>, tail: string, acc: Values)
    requires forall e :: e in entries ==> WellFormed(e)
    requires '\n' !in tail
    ensures var r := ParseFrom(RenderAll(entries, tail), acc);
      && r.Filled?
      && forall h: string :: Get(r.value, h, 0) == LastQuantity(entries, h, Get(acc, h, 0))
  {
    if entries == [] {
      assert ReadString(tail).None?;
    } else {
      var e, rest := entries[0], RenderAll(entries[1..], tail);
      RenderedOnOneLine(e);
      ReadStringLine(Render(e), rest);
      RenderedLineParses(e);
      var acc' := acc[e.header := Quantity(e)];
      RenderedFileParses(entries[1..], tail, acc');
      forall h: string
        ensures LastQuantity(entries, h, Get(acc, h, 0)) == LastQuantity(entries[1..], h, Get(acc', h, 0))
      {
        LastQuantityCons(entries, h, Get(acc, h, 0));
      }
    }
  }

  lemma {:induction false} LastQuantityCons(entries: seq<Entry>, h: string, otherwise: U64)
    requires entries != []
    ensures LastQuantity(entries, h, otherwise)
         == LastQuantity(entries[1..], h, if entries[0].header == h then Quantity(entries[0]) else otherwise)
  {
    if |entries| > 1 {
      assert Front(entries)[1..] == Front(entries[1..]);
      LastQuantityCons(Front(entries), h, otherwise);
    } else {
      assert Front(entries) == [];
    }
  }

  /** Round trip: rendering entries with any spacing and reading the text gives each tagged field the
      last quantity of its header, and zero when the header is absent. Unknown headers and an
      unterminated last line have no influence. */
  lemma RoundTrip(entries: seq<Entry>, tail: string)
    requires forall e :: e in entries ==> WellFormed(e)
    requires '\n' !in tail
    ensures var r := ReadText(RenderAll(entries, tail));
      && r.Filled? && |r.value| == |TAGS|
      && forall i :: 0 <= i < |TAGS| ==> r.value[i] == LastQuantity(entries, TAGS[i], 0)
  {
    RenderedFileParses(entries, tail, map[]);
  }

  /** Below 2^54 kB the quantity is exact: no bit is lost by the scaling. */
  lemma QuantityIsExact(e: Entry)
    ensures e.kB ==> (Quantity(e) == e.value * 1024 <==> e.value < 0x40_0000_0000_0000)
  {
    var k := WrapUMultiple(e.value * 1024);
  }

  // ----- Plain files, fields by name, and malformed lines

  /** Headers of printable ASCII characters, with blanks and tabs around them. */
  predicate Plain(e: Entry) {
    && (forall i :: 0 <= i < |e.header| ==> '!' <= e.header[i] <= '~')
    && (forall c :: c in e.lead + e.gap + e.unitGap + e.trail ==> c == ' ' || c == '\t')
    && e.gap != "" && e.unitGap != ""
  }

  lemma PlainIsWellFormed(e: Entry)
    requires Plain(e)
    ensures WellFormed(e)
  {
    var all := e.lead + e.gap + e.unitGap + e.trail;
    forall i | 0 <= i < |e.lead| ensures e.lead[i] in all {
      assert all[i] == e.lead[i];
    }
    forall i | 0 <= i < |e.gap| ensures e.gap[i] in all {
      assert all[|e.lead| + i] == e.gap[i];
    }
    forall i | 0 <= i < |e.unitGap| ensures e.unitGap[i] in all {
      assert all[|e.lead| + |e.gap| + i] == e.unitGap[i];
    }
    forall i | 0 <= i < |e.trail| ensures e.trail[i] in all {
      assert all[|e.lead| + |e.gap| + |e.unitGap| + i] == e.trail[i];
    }
    SpacingOfText(e.lead, e.header);
    SpacingOfText(e.gap, e.header);
    SpacingOfText(e.unitGap, e.header);
    SpacingOfText(e.trail, e.header);
  }

  /** Where the fields that the memory totals use are, by name. */
  const MEM_TOTAL := 0
  const MEM_FREE := 1
  const BUFFERS := 2
  const CACHED := 3
  const SWAP_TOTAL := 13
  const SWAP_FREE := 14

  /** The round trip of a plain file, for the fields that the memory totals use, by their headers. */
  lemma TotalsRoundTrip(entries: seq<Entry>, tail: string)
    requires forall e :: e in entries ==> Plain(e)
    requires '\n' !in tail
    ensures var r := ReadText(RenderAll(entries, tail));
      && r.Filled? && |r.value| == 34
      && r.value[MEM_TOTAL] == LastQuantity(entries, "MemTotal", 0)
      && r.value[MEM_FREE] == LastQuantity(entries, "MemFree", 0)
      && r.value[BUFFERS] == LastQuantity(entries, "Buffers", 0)
      && r.value[CACHED] == LastQuantity(entries, "Cached", 0)
      && r.value[SWAP_TOTAL] == LastQuantity(entries, "SwapTotal", 0)
      && r.value[SWAP_FREE] == LastQuantity(entries, "SwapFree", 0)
  {
    forall e | e in entries ensures WellFormed(e) {
      PlainIsWellFormed(e);
    }
    RoundTrip(entries, tail);
    TagsOfTotals();
  }

  lemma TagsOfTotals()
    ensures |TAGS| == 34
    ensures TAGS[MEM_TOTAL] == "MemTotal" && TAGS[MEM_FREE] == "MemFree" && TAGS[BUFFERS] == "Buffers"
    ensures TAGS[CACHED] == "Cached" && TAGS[SWAP_TOTAL] == "SwapTotal" && TAGS[SWAP_FREE] == "SwapFree"
  {
  }

  /** A line that makes the reader give up: no value, a value that is no uint64, or an unknown unit. A fourth word
      hides the unit. */
  predicate Bad(line: string) {
    var fields := Fields(line);
    || |fields| < 2
    || !(fields[1] != "" && AllDigits(fields[1]) && Value(fields[1]) <= 0xFFFF_FFFF_FFFF_FFFF)
    || (|fields| == 3 && fields[2] != "kB")
  }

  /** For any text whatever: reading gives up if and only if one of the complete lines is bad. */
  lemma {:induction false} GivesUpIffBadLine(text: string, acc: Values)
    ensures ParseFrom(text, acc).Malformed? <==> exists line :: line in Lines(text) && Bad(line)
    decreases |text|
  {
    var next := ReadString(text);
    if next.Some? {
      var parsed := ParseLine(next.value.0);
      assert parsed.Malformed? <==> Bad(next.value.0);
      assert next.value.0 in Lines(text);
      if parsed.Filled? {
        GivesUpIffBadLine(next.value.1, acc[parsed.value.0 := parsed.value.1]);
        assert Lines(text)[1..] == Lines(next.value.1);
        forall line | line in Lines(next.value.1) ensures line in Lines(text) {
        }
      }
    }
  }

  /** What any other line means: its first word without one trailing colon, and its second word as a number, in
      units of 1024 if and only if there are exactly three words. */
  lemma GoodLineMeans(line: string, header: string)
    requires !Bad(line)
    requires Fields(line)[0] == header + ":" || (Fields(line)[0] == header && (header == "" || Last(header) != ':'))
    ensures var value := Value(Fields(line)[1]);
      ParseLine(line) == Filled((header, WrapU(if |Fields(line)| == 3 then value * 1024 else value)))
  {
    FrontOfAppend(header, ':');
  }
}

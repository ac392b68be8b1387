/** Laws of the block-IO aggregation: conservation, independence of row order, and agreement of the
    cgroup v1 and v2 readers on equivalent data. */
module CgroupLaws {
  import opened Prelude
  import opened Decimal
  import opened MountInfo
  import opened Cgroup

  // ----- Conservation

  /** The exact sum of the rows of one list and operation, whatever their key. */
  function Total(rows: seq<Row>, list: List, op: Op): nat {
    if rows == [] then 0
    else Total(Front(rows), list, op) + Contribution(Last(rows), Last(rows).key, list, op) as nat
  }

  /** One stored counter of a reported device. */
  function CounterOf(u: IODeviceUsage, list: List, op: Op): U64 {
    match (list, op)
    case (Bytes, Read) => u.readBytes
    case (Bytes, Write) => u.writeBytes
    case (IOs, Read) => u.readIOs
    case (IOs, Write) => u.writeIOs
    case (_, Other) => 0
  }

  /** The sum of one counter over the reported devices. */
  function DeviceTotal(usage: seq<IODeviceUsage>, list: List, op: Op): nat {
    if usage == [] then 0
    else DeviceTotal(Front(usage), list, op) + CounterOf(Last(usage), list, op) as nat
  }

  function SumOverKeys(keys: seq<string>, rows: seq<Row>, list: List, op: Op): nat {
    if keys == [] then 0 else SumOverKeys(Front(keys), rows, list, op) + Sum(rows, Last(keys), list, op)
  }

  predicate Distinct<T(==)>(s: seq<T>) {
    forall i, j :: 0 <= i < j < |s| ==> s[i] != s[j]
  }

  /** A row moves the sum over distinct keys by its value exactly when its key is among them. */
  lemma {:induction false} SumOverKeysStep(keys: seq<string>, rows: seq<Row>, list: List, op: Op)
    requires rows != [] && Distinct(keys)
    ensures SumOverKeys(keys, rows, list, op) == SumOverKeys(keys, Front(rows), list, op)
      + if Last(rows).key in keys then Contribution(Last(rows), Last(rows).key, list, op) as nat else 0
  {
    if keys != [] {
      SumOverKeysStep(Front(keys), rows, list, op);
      assert Last(rows).key in keys <==> Last(rows).key in Front(keys) || Last(rows).key == Last(keys);
      assert Last(keys) !in Front(keys);
    }
  }

  lemma {:induction false} SumOverNoRows(keys: seq<string>, list: List, op: Op)
    ensures SumOverKeys(keys, [], list, op) == 0
  {
    if keys != [] {
      SumOverNoRows(Front(keys), list, op);
    }
  }

  /** Grouping partitions the rows. */
  lemma {:induction false} GroupsPartitionTotal(keys: seq<string>, rows: seq<Row>, list: List, op: Op)
    requires Distinct(keys) && op != Other
    requires forall r :: 0 <= r < |rows| && rows[r].op != Other ==> rows[r].key in keys
    ensures SumOverKeys(keys, rows, list, op) == Total(rows, list, op)
  {
    if rows == [] {
      SumOverNoRows(keys, list, op);
    } else {
      SumOverKeysStep(keys, rows, list, op);
      GroupsPartitionTotal(keys, Front(rows), list, op);
    }
  }

  lemma AddWrapped(a: int, b: int, exact: int)
    requires WrapU(a) == WrapU(b)
    ensures WrapU(a + WrapU(exact)) == WrapU(b + exact)
  {
    WrapUAdd(a, WrapU(exact));
    WrapUAdd(b, WrapU(exact));
    WrapUAdd(exact, b);
  }

  /** The devices' stored counters add up to the exact sums of their groups, modulo 2^64. */
  lemma {:induction false} DeviceTotalWraps(keys: seq<string>, usage: seq<IODeviceUsage>, rows: seq<Row>,
                                            list: List, op: Op)
    requires |usage| == |keys|
    requires forall i :: 0 <= i < |keys| ==> CounterOf(usage[i], list, op) == WrapU(Sum(rows, keys[i], list, op))
    ensures WrapU(DeviceTotal(usage, list, op)) == WrapU(SumOverKeys(keys, rows, list, op))
  {
    if keys != [] {
      assert WrapU(DeviceTotal(Front(usage), list, op)) == WrapU(SumOverKeys(Front(keys), rows, list, op)) by {
        DeviceTotalWraps(Front(keys), Front(usage), rows, list, op);
      }
      assert CounterOf(Last(usage), list, op) == WrapU(Sum(rows, Last(keys), list, op));
      AddWrapped(DeviceTotal(Front(usage), list, op), SumOverKeys(Front(keys), rows, list, op),
                 Sum(rows, Last(keys), list, op));
    }
  }

  /** Conservation: summed over the reported devices, each of the four counters is the sum of all rows of
      its list and operation, modulo 2^64. */
  lemma Conservation(blkio: BlkIOStat, mounts: Index, list: List, op: Op)
    requires op != Other
    ensures WrapU(DeviceTotal(V1IOUsage(Some(blkio), mounts), list, op)) == WrapU(Total(RowsOf(blkio), list, op))
  {
    var rows := RowsOf(blkio);
    KeysInFirstAppearanceOrder(rows);
    DeviceTotalWraps(KeysOf(rows), GroupBy(rows, mounts), rows, list, op);
    GroupsPartitionTotal(KeysOf(rows), rows, list, op);
  }

  // ----- Concatenation

  lemma {:induction false} SumOfConcat(a: seq<Row>, b: seq<Row>, key: string, list: List, op: Op)
    ensures Sum(a + b, key, list, op) == Sum(a, key, list, op) + Sum(b, key, list, op)
  {
    if b == [] {
      assert a + b == a;
    } else {
      assert Front(a + b) == a + Front(b);
      SumOfConcat(a, Front(b), key, list, op);
    }
  }

  // ----- Row order

  predicate HasKey(rows: seq<Row>, key: string) {
    exists i :: 0 <= i < |rows| && rows[i].op != Other && rows[i].key == key
  }

  lemma KeysAreTheCountedKeys(rows: seq<Row>, key: string)
    ensures key in KeysOf(rows) <==> HasKey(rows, key)
  {
    KeysInFirstAppearanceOrder(rows);
    if key in KeysOf(rows) {
      assert rows[FirstIndex(rows, key)].key == key;
    }
  }

  lemma SumWithout(rows: seq<Row>, i: nat, key: string, list: List, op: Op)
    requires i < |rows|
    ensures Sum(rows, key, list, op)
         == Sum(rows[..i] + rows[i + 1..], key, list, op) + Contribution(rows[i], key, list, op) as nat
  {
    assert rows == rows[..i] + [rows[i]] + rows[i + 1..];
    SumOfConcat(rows[..i] + [rows[i]], rows[i + 1..], key, list, op);
    SumOfConcat(rows[..i], [rows[i]], key, list, op);
    SumOfConcat(rows[..i], rows[i + 1..], key, list, op);
    assert Front([rows[i]]) == [];
  }

  lemma MultisetWithout<T>(s: seq<T>, i: nat)
    requires i < |s|
    ensures multiset(s[..i] + s[i + 1..]) == multiset(s) - multiset{s[i]}
  {
    assert s == s[..i] + [s[i]] + s[i + 1..];
  }

  /** The last element of a sequence can be taken out of any permutation of it. */
  lemma FindInPermutation<T>(a: seq<T>, b: seq<T>) returns (i: nat)
    requires a != [] && multiset(a) == multiset(b)
    ensures i < |b| && b[i] == Last(a)
    ensures multiset(Front(a)) == multiset(b[..i] + b[i + 1..])
  {
    assert Last(a) in multiset(a);
    i := IndexOfElement(b, Last(a));
    MultisetOfFront(a);
    MultisetWithout(b, i);
  }

  lemma IndexOfElement<T>(s: seq<T>, x: T) returns (i: nat)
    requires x in multiset(s)
    ensures i < |s| && s[i] == x
  {
    assert x in s;
    i :| i < |s| && s[i] == x;
  }

  lemma MultisetOfFront<T>(s: seq<T>)
    requires s != []
    ensures multiset(Front(s)) == multiset(s) - multiset{Last(s)}
  {
    assert s == Front(s) + [Last(s)];
  }

  lemma EmptyPermutation<T>(b: seq<T>)
    requires multiset(b) == multiset{}
    ensures b == []
  {
    assert |b| == |multiset(b)|;
  }

  lemma {:induction false} SumOfPermutation(a: seq<Row>, b: seq<Row>, key: string, list: List, op: Op)
    requires multiset(a) == multiset(b)
    ensures Sum(a, key, list, op) == Sum(b, key, list, op)
    decreases |a|
  {
    if a == [] {
      EmptyPermutation(b);
    } else {
      var i := FindInPermutation(a, b);
      SumOfPermutation(Front(a), b[..i] + b[i + 1..], key, list, op);
      SumWithout(b, i, key, list, op);
    }
  }

  lemma {:induction false} TagIsPermuted(a: seq<BlkIOEntry>, b: seq<BlkIOEntry>, list: List)
    requires multiset(a) == multiset(b)
    ensures multiset(Tag(a, list)) == multiset(Tag(b, list))
    decreases |a|
  {
    if a == [] {
      EmptyPermutation(b);
    } else {
      var i := FindInPermutation(a, b);
      var rest := b[..i] + b[i + 1..];
      TagIsPermuted(Front(a), rest, list);
      var row := RowOf(Last(a), list);
      assert Tag(a, list) == Tag(Front(a), list) + [row];
      assert Tag(b, list) == Tag(b[..i], list) + [row] + Tag(b[i + 1..], list);
      assert Tag(rest, list) == Tag(b[..i], list) + Tag(b[i + 1..], list);
    }
  }

  lemma KeyOfPermutation(a: seq<Row>, b: seq<Row>, key: string)
    requires multiset(a) == multiset(b)
    ensures key in KeysOf(a) ==> key in KeysOf(b)
  {
    KeysAreTheCountedKeys(a, key);
    KeysAreTheCountedKeys(b, key);
    if HasKey(a, key) {
      var i :| 0 <= i < |a| && a[i].op != Other && a[i].key == key;
      assert a[i] in multiset(b);
      var j :| 0 <= j < |b| && b[j] == a[i];
    }
  }

  lemma RowsArePermuted(x: BlkIOStat, y: BlkIOStat)
    requires multiset(x.serviceBytes) == multiset(y.serviceBytes)
    requires multiset(x.serviced) == multiset(y.serviced)
    ensures multiset(RowsOf(x)) == multiset(RowsOf(y))
  {
    TagIsPermuted(x.serviceBytes, y.serviceBytes, Bytes);
    TagIsPermuted(x.serviced, y.serviced, IOs);
  }

  /** Permuting the rows within each list changes neither the set of reported keys nor any counter. */
  lemma RowOrderIsIrrelevant(x: BlkIOStat, y: BlkIOStat, mounts: Index, key: string, list: List, op: Op)
    requires multiset(x.serviceBytes) == multiset(y.serviceBytes)
    requires multiset(x.serviced) == multiset(y.serviced)
    ensures key in KeysOf(RowsOf(x)) <==> key in KeysOf(RowsOf(y))
    ensures key in KeysOf(RowsOf(x)) ==>
      CounterOf(GroupRecord(RowsOf(x), key, mounts), list, op)
        == CounterOf(GroupRecord(RowsOf(y), key, mounts), list, op)
  {
    RowsArePermuted(x, y);
    KeyOfPermutation(RowsOf(x), RowsOf(y), key);
    KeyOfPermutation(RowsOf(y), RowsOf(x), key);
    SumOfPermutation(RowsOf(x), RowsOf(y), key, list, op);
  }

  // ----- Rows with other operations

  function CountedRows(rows: seq<Row>): seq<Row> {
    if rows == [] then []
    else CountedRows(Front(rows)) + if Last(rows).op == Other then [] else [Last(rows)]
  }

  lemma {:induction false} OtherRowsChangeNoTable(rows: seq<Row>, mounts: Index)
    ensures TableOf(CountedRows(rows), mounts) == TableOf(rows, mounts)
  {
    if rows != [] {
      OtherRowsChangeNoTable(Front(rows), mounts);
      if Last(rows).op != Other {
        FrontOfAppend(CountedRows(Front(rows)), Last(rows));
      } else {
        assert CountedRows(rows) == CountedRows(Front(rows));
      }
    }
  }

  /** The report is the table, read in its order. */
  lemma GroupByReadsTable(rows: seq<Row>, mounts: Index, i: nat)
    requires i < |KeysOf(rows)|
    ensures var t := TableOf(rows, mounts);
      && t.order == KeysOf(rows) && t.order[i] in t.devices && GroupBy(rows, mounts)[i] == t.devices[t.order[i]]
  {
    TableIsGroupBy(rows, mounts);
  }

  /** Rows whose operation is neither read nor write have no effect on the report. */
  lemma OtherRowsAreInert(rows: seq<Row>, mounts: Index)
    ensures GroupBy(CountedRows(rows), mounts) == GroupBy(rows, mounts)
  {
    OtherRowsChangeNoTable(rows, mounts);
    TableIsGroupBy(rows, mounts);
    TableIsGroupBy(CountedRows(rows), mounts);
    var x, y := GroupBy(CountedRows(rows), mounts), GroupBy(rows, mounts);
    forall i | 0 <= i < |y| ensures x[i] == y[i] {
      GroupByReadsTable(rows, mounts, i);
      GroupByReadsTable(CountedRows(rows), mounts, i);
    }
  }

  // ----- Agreement of v1 and v2

  function Unnamed(e: IOEntry, op: string, value: U64): BlkIOEntry {
    BlkIOEntry("", e.major, e.minor, op, value)
  }

  function EncodeBytes(entries: seq<IOEntry>): seq<BlkIOEntry> {
    if entries == [] then []
    else EncodeBytes(Front(entries))
         + [Unnamed(Last(entries), "Read", Last(entries).rbytes), Unnamed(Last(entries), "Write", Last(entries).wbytes)]
  }

  function EncodeIOs(entries: seq<IOEntry>): seq<BlkIOEntry> {
    if entries == [] then []
    else EncodeIOs(Front(entries))
         + [Unnamed(Last(entries), "Read", Last(entries).rios), Unnamed(Last(entries), "Write", Last(entries).wios)]
  }

  /** The v1 rows that report the same usage: unnamed devices, one Read and one Write row per list. */
  function EncodeV1(entries: seq<IOEntry>): BlkIOStat {
    BlkIOStat(EncodeBytes(entries), EncodeIOs(entries))
  }

  function EntryKey(e: IOEntry): string {
    DeviceKey(e.major, e.minor)
  }

  predicate DistinctDevices(entries: seq<IOEntry>) {
    forall i, j :: 0 <= i < j < |entries| ==>
      entries[i].major != entries[j].major || entries[i].minor != entries[j].minor
  }

  function Rows(entries: seq<IOEntry>, list: List): seq<Row> {
    Tag(if list == Bytes then EncodeBytes(entries) else EncodeIOs(entries), list)
  }

  function Reported(e: IOEntry, list: List, op: Op): U64 {
    match (list, op)
    case (Bytes, Read) => e.rbytes
    case (Bytes, Write) => e.wbytes
    case (IOs, Read) => e.rios
    case (IOs, Write) => e.wios
    case (_, Other) => 0
  }

  function EntryRow(e: IOEntry, list: List, op: Op): Row {
    Row(EntryKey(e), e.major, e.minor, op, Reported(e, list, op), list)
  }

  lemma EncodedOps()
    ensures ToLower("Read") == "read" && ToLower("Write") == "write"
  {
  }

  lemma RowsStep(entries: seq<IOEntry>, list: List)
    requires entries != []
    ensures Rows(entries, list)
         == Rows(Front(entries), list) + [EntryRow(Last(entries), list, Read), EntryRow(Last(entries), list, Write)]
  {
    EncodedOps();
    var e := Last(entries);
    var before := if list == Bytes then EncodeBytes(Front(entries)) else EncodeIOs(Front(entries));
    var pair := if list == Bytes then [Unnamed(e, "Read", e.rbytes), Unnamed(e, "Write", e.wbytes)]
                else [Unnamed(e, "Read", e.rios), Unnamed(e, "Write", e.wios)];
    assert Tag(before + pair, list) == Tag(before, list) + Tag(pair, list);
    assert Tag(pair, list) == [EntryRow(e, list, Read), EntryRow(e, list, Write)];
  }

  /** Two more rows of one device. */
  lemma TwoRows(rows: seq<Row>, a: Row, b: Row, key: string, list: List, op: Op)
    requires a.key == b.key && a.op != Other && b.op != Other
    ensures KeysOf(rows + [a, b]) == if a.key in KeysOf(rows) then KeysOf(rows) else KeysOf(rows) + [a.key]
    ensures key in KeysOf(rows) ==> FirstIndex(rows + [a, b], key) == FirstIndex(rows, key)
    ensures a.key !in KeysOf(rows) ==> FirstIndex(rows + [a, b], a.key) == |rows|
    ensures Sum(rows + [a, b], key, list, op)
         == Sum(rows, key, list, op) + Contribution(a, key, list, op) as nat + Contribution(b, key, list, op) as nat
  {
    assert rows + [a, b] == (rows + [a]) + [b];
    FrontOfAppend(rows + [a], b);
    FrontOfAppend(rows, a);
  }

  lemma EncodedKeysStep(entries: seq<IOEntry>, list: List)
    requires entries != []
    ensures var before, key := KeysOf(Rows(Front(entries), list)), EntryKey(Last(entries));
      KeysOf(Rows(entries, list)) == if key in before then before else before + [key]
  {
    var e := Last(entries);
    RowsStep(entries, list);
    TwoRows(Rows(Front(entries), list), EntryRow(e, list, Read), EntryRow(e, list, Write), "", Bytes, Other);
  }

  function EntryKeys(entries: seq<IOEntry>): seq<string> {
    seq(|entries|, i requires 0 <= i < |entries| => EntryKey(entries[i]))
  }

  /** A sequence without its repetitions. */
  function Dedup<T(==)>(s: seq<T>): seq<T> {
    if s == [] then []
    else if Last(s) in Dedup(Front(s)) then Dedup(Front(s)) else Dedup(Front(s)) + [Last(s)]
  }

  lemma {:induction false} DedupKeepsElements<T>(s: seq<T>)
    ensures forall x :: x in Dedup(s) <==> x in s
  {
    if s != [] {
      DedupKeepsElements(Front(s));
      assert s == Front(s) + [Last(s)];
    }
  }

  lemma DistinctStep<T>(s: seq<T>)
    requires s != []
    ensures Distinct(s) <==> Distinct(Front(s)) && Last(s) !in Front(s)
  {
    if Distinct(Front(s)) && Last(s) !in Front(s) {
      forall i, j | 0 <= i < j < |s| ensures s[i] != s[j] {
        assert s[i] == Front(s)[i];
        assert j < |s| - 1 ==> s[j] == Front(s)[j];
      }
    }
    if Distinct(s) {
      forall i, j | 0 <= i < j < |s| - 1 ensures Front(s)[i] != Front(s)[j] {
        assert s[i] != s[j];
      }
      forall i | 0 <= i < |s| - 1 ensures Front(s)[i] != Last(s) {
        assert s[i] != s[|s| - 1];
      }
    }
  }

  /** Removing repetitions shortens a sequence exactly when it has some. */
  lemma {:induction false} DedupOfDistinct<T>(s: seq<T>)
    ensures |Dedup(s)| <= |s|
    ensures if Distinct(s) then Dedup(s) == s else |Dedup(s)| < |s|
  {
    if s != [] {
      DedupOfDistinct(Front(s));
      DedupKeepsElements(Front(s));
      DistinctStep(s);
      assert s == Front(s) + [Last(s)];
    }
  }

  lemma {:induction false} EncodedKeys(entries: seq<IOEntry>, list: List)
    ensures KeysOf(Rows(entries, list)) == Dedup(EntryKeys(entries))
  {
    if entries != [] {
      EncodedKeys(Front(entries), list);
      EncodedKeysStep(entries, list);
      assert Front(EntryKeys(entries)) == EntryKeys(Front(entries));
    }
  }

  lemma DistinctKeys(entries: seq<IOEntry>)
    ensures Distinct(EntryKeys(entries)) <==> DistinctDevices(entries)
  {
    forall i, j | 0 <= i < j < |entries|
      ensures EntryKeys(entries)[i] != EntryKeys(entries)[j] <==>
        entries[i].major != entries[j].major || entries[i].minor != entries[j].minor
    {
      DeviceKeyInjective(entries[i].major, entries[i].minor, entries[j].major, entries[j].minor);
    }
    if Distinct(EntryKeys(entries)) {
      forall i, j | 0 <= i < j < |entries|
        ensures entries[i].major != entries[j].major || entries[i].minor != entries[j].minor
      {
        assert EntryKeys(entries)[i] != EntryKeys(entries)[j];
      }
    }
  }

  // The byte rows come first and already bring in every key; the rest follows per entry.

  lemma {:induction false} KeysOfConcat(a: seq<Row>, b: seq<Row>)
    requires forall r :: 0 <= r < |b| ==> b[r].key in KeysOf(a)
    ensures KeysOf(a + b) == KeysOf(a)
    ensures forall key :: key in KeysOf(a) ==> FirstIndex(a + b, key) == FirstIndex(a, key)
  {
    if b == [] {
      assert a + b == a;
    } else {
      assert Front(a + b) == a + Front(b);
      KeysOfConcat(a, Front(b));
    }
  }

  lemma {:induction false} RowKeys(entries: seq<IOEntry>, list: List)
    ensures forall r :: 0 <= r < |Rows(entries, list)| ==> Rows(entries, list)[r].key in EntryKeys(entries)
  {
    if entries != [] {
      RowKeys(Front(entries), list);
      RowsStep(entries, list);
      assert EntryKeys(entries) == EntryKeys(Front(entries)) + [EntryKey(Last(entries))];
    }
  }

  /** The first row of a device carries its numbers. */
  lemma {:induction false} FirstRowNumbers(entries: seq<IOEntry>, list: List, e: IOEntry)
    requires EntryKey(e) in KeysOf(Rows(entries, list))
    ensures var first := Rows(entries, list)[FirstIndex(Rows(entries, list), EntryKey(e))];
      first.major == e.major && first.minor == e.minor
  {
    var before, last := Front(entries), Last(entries);
    RowsStep(entries, list);
    TwoRows(Rows(before, list), EntryRow(last, list, Read), EntryRow(last, list, Write), EntryKey(e), Bytes, Other);
    if EntryKey(e) in KeysOf(Rows(before, list)) {
      FirstRowNumbers(before, list, e);
    } else {
      DeviceKeyInjective(e.major, e.minor, last.major, last.minor);
    }
  }

  /** One more entry adds what it reports to its own counters only. */
  lemma EntryAdds(entries: seq<IOEntry>, from: List, key: string, list: List, op: Op)
    requires entries != [] && op != Other
    ensures Sum(Rows(entries, from), key, list, op) == Sum(Rows(Front(entries), from), key, list, op)
      + if EntryKey(Last(entries)) == key && from == list then Reported(Last(entries), list, op) as nat else 0
  {
    var e := Last(entries);
    RowsStep(entries, from);
    TwoRows(Rows(Front(entries), from), EntryRow(e, from, Read), EntryRow(e, from, Write), key, list, op);
  }

  /** What the entries of one device report, added up. */
  function ReportedTo(entries: seq<IOEntry>, key: string, list: List, op: Op): nat {
    if entries == [] then 0
    else ReportedTo(Front(entries), key, list, op)
         + if EntryKey(Last(entries)) == key then Reported(Last(entries), list, op) as nat else 0
  }

  lemma {:induction false} RowsAddUp(entries: seq<IOEntry>, from: List, key: string, list: List, op: Op)
    requires op != Other
    ensures Sum(Rows(entries, from), key, list, op) == if from == list then ReportedTo(entries, key, list, op) else 0
  {
    if entries != [] {
      RowsAddUp(Front(entries), from, key, list, op);
      EntryAdds(entries, from, key, list, op);
    }
  }

  lemma {:induction false} NothingReported(entries: seq<IOEntry>, key: string, list: List, op: Op)
    requires key !in EntryKeys(entries)
    ensures ReportedTo(entries, key, list, op) == 0
  {
    if entries != [] {
      assert EntryKeys(entries) == EntryKeys(Front(entries)) + [EntryKey(Last(entries))];
      NothingReported(Front(entries), key, list, op);
    }
  }

  lemma DistinctPrefix(entries: seq<IOEntry>)
    requires entries != [] && Distinct(EntryKeys(entries))
    ensures Distinct(EntryKeys(Front(entries))) && EntryKey(Last(entries)) !in EntryKeys(Front(entries))
  {
    var keys := EntryKeys(entries);
    assert EntryKeys(Front(entries)) == Front(keys) && Last(keys) == EntryKey(Last(entries));
  }

  /** With distinct devices, what is reported to the device of entry i is what entry i reports. */
  lemma {:induction false} DistinctReport(entries: seq<IOEntry>, i: nat, list: List, op: Op)
    requires i < |entries| && Distinct(EntryKeys(entries))
    ensures ReportedTo(entries, EntryKey(entries[i]), list, op) == Reported(entries[i], list, op)
  {
    var before, key := Front(entries), EntryKey(entries[i]);
    DistinctPrefix(entries);
    if i < |before| {
      assert EntryKeys(before)[i] == key;
      DistinctReport(before, i, list, op);
    } else {
      NothingReported(before, key, list, op);
    }
  }

  lemma EncodedSums(entries: seq<IOEntry>, i: nat, list: List, op: Op)
    requires i < |entries| && op != Other
    requires Distinct(EntryKeys(entries))
    ensures Sum(RowsOf(EncodeV1(entries)), EntryKey(entries[i]), list, op) == Reported(entries[i], list, op)
  {
    var key := EntryKey(entries[i]);
    SumOfConcat(Rows(entries, Bytes), Rows(entries, IOs), key, list, op);
    RowsAddUp(entries, Bytes, key, list, op);
    RowsAddUp(entries, IOs, key, list, op);
    DistinctReport(entries, i, list, op);
  }

  lemma EncodedFirstRow(entries: seq<IOEntry>, i: nat)
    requires i < |entries| && Distinct(EntryKeys(entries))
    ensures var rows, key := RowsOf(EncodeV1(entries)), EntryKey(entries[i]);
      && KeysOf(rows) == EntryKeys(entries) && key in KeysOf(rows)
      && rows[FirstIndex(rows, key)].major == entries[i].major
      && rows[FirstIndex(rows, key)].minor == entries[i].minor
  {
    EncodedKeys(entries, Bytes);
    DedupOfDistinct(EntryKeys(entries));
    RowKeys(entries, IOs);
    KeysOfConcat(Rows(entries, Bytes), Rows(entries, IOs));
    assert EntryKeys(entries)[i] in KeysOf(Rows(entries, Bytes));
    FirstRowNumbers(entries, Bytes, entries[i]);
  }

  lemma EncodedRecord(entries: seq<IOEntry>, i: nat, mounts: Index)
    requires i < |entries| && Distinct(EntryKeys(entries))
    ensures KeysOf(RowsOf(EncodeV1(entries))) == EntryKeys(entries)
    ensures GroupRecord(RowsOf(EncodeV1(entries)), EntryKeys(entries)[i], mounts) == V2Record(entries[i], mounts)
  {
    EncodedFirstRow(entries, i);
    EncodedSums(entries, i, Bytes, Read);
    EncodedSums(entries, i, Bytes, Write);
    EncodedSums(entries, i, IOs, Read);
    EncodedSums(entries, i, IOs, Write);
  }

  lemma EncodedKeyList(entries: seq<IOEntry>)
    ensures KeysOf(RowsOf(EncodeV1(entries))) == Dedup(EntryKeys(entries))
  {
    EncodedKeys(entries, Bytes);
    DedupKeepsElements(EntryKeys(entries));
    RowKeys(entries, IOs);
    KeysOfConcat(Rows(entries, Bytes), Rows(entries, IOs));
  }

  /** v1 and v2 agree: on the v1 encoding of a v2 usage list, the v1 reader reports exactly what the v2
      reader reports on the list itself, order included, if and only if the list names no device twice. */
  lemma ReadersAgree(entries: seq<IOEntry>, mounts: Index)
    ensures V1IOUsage(Some(EncodeV1(entries)), mounts) == V2IOUsage(Some(entries), mounts)
       <==> DistinctDevices(entries)
  {
    var v1, v2 := V1IOUsage(Some(EncodeV1(entries)), mounts), V2IOUsage(Some(entries), mounts);
    DistinctKeys(entries);
    EncodedKeyList(entries);
    DedupOfDistinct(EntryKeys(entries));
    if DistinctDevices(entries) {
      forall i | 0 <= i < |entries| ensures v1[i] == v2[i] {
        EncodedRecord(entries, i, mounts);
      }
    } else {
      assert |v1| < |v2|;
    }
  }

  /** The v1 metrics of the same container: nanoseconds, swap counted together with memory, unnamed rows. */
  function EncodeMetrics(m: V2Metrics): V1Metrics {
    V1Metrics(WrapU(m.usageUsec * 1000),
              MemoryEntry(m.memoryUsage, 0, m.memoryLimit),
              MemoryEntry(WrapU(m.memoryUsage + m.swapUsage), 0, WrapU(m.memoryLimit + m.swapLimit)),
              if m.io.None? then None else Some(EncodeV1(m.io.value)))
  }

  /** Subtracting memory recovers swap exactly when their sum does not overflow. */
  lemma SwapRecovered(memory: U64, swap: U64)
    ensures V1SwapMetric(WrapU(memory + swap), memory) == swap <==> memory + swap < 0x1_0000_0000_0000_0000
  {
    var k := WrapUMultiple(memory + swap);
  }

  lemma NanosecondsAgree(usec: U64)
    ensures WrapI(WrapU(usec * 1000)) == WrapI(WrapI(usec) * 1000)
  {
    var i := WrapUMultiple(usec * 1000);
    WrapIShift(usec * 1000, WrapU(usec * 1000), i);
    var j := WrapIMultiple(usec);
    WrapIShift(usec * 1000, WrapI(usec) * 1000, 1000 * j);
  }

  /** The two readers agree on the whole statistics of equivalent metrics exactly when neither sum of memory
      and swap overflows and no device is listed twice. */
  lemma StatsAgree(m: V2Metrics, mounts: Index)
    ensures V1Stats(EncodeMetrics(m), mounts) == V2Stats(m, mounts) <==>
      && m.memoryUsage + m.swapUsage < 0x1_0000_0000_0000_0000
      && m.memoryLimit + m.swapLimit < 0x1_0000_0000_0000_0000
      && (m.io.Some? ==> DistinctDevices(m.io.value))
  {
    SwapRecovered(m.memoryUsage, m.swapUsage);
    SwapRecovered(m.memoryLimit, m.swapLimit);
    NanosecondsAgree(m.usageUsec);
    if m.io.Some? {
      ReadersAgree(m.io.value, mounts);
    }
  }
}

/** cgroup/stats.go: what the v1 block-IO report says about the entries as the kernel spells them, without the
    keys and tags of the aggregation. */
module BlkIOLaws {
  import opened Prelude
  import opened Decimal
  import opened MountInfo
  import opened Cgroup
  import opened CgroupLaws

  // ----- Operations and devices, read off the entry

  /** The case spellings of "read". */
  predicate IsRead(op: string) {
    && |op| == 4
    && (op[0] == 'r' || op[0] == 'R') && (op[1] == 'e' || op[1] == 'E')
    && (op[2] == 'a' || op[2] == 'A') && (op[3] == 'd' || op[3] == 'D')
  }

  /** The case spellings of "write"; the dotted capital I also has a small i as its lower case. */
  predicate IsWrite(op: string) {
    && |op| == 5
    && (op[0] == 'w' || op[0] == 'W') && (op[1] == 'r' || op[1] == 'R')
    && (op[2] == 'i' || op[2] == 'I' || op[2] == '\U{0130}')
    && (op[3] == 't' || op[3] == 'T') && (op[4] == 'e' || op[4] == 'E')
  }

  predicate Counts(e: BlkIOEntry) {
    IsRead(e.op) || IsWrite(e.op)
  }

  /** Named entries are told apart by name, unnamed ones by number; a name may spell a number. */
  predicate SameDevice(e: BlkIOEntry, f: BlkIOEntry) {
    if e.device != "" && f.device != "" then e.device == f.device
    else if e.device != "" then ParseDeviceKey(e.device) == Some((f.major, f.minor))
    else if f.device != "" then ParseDeviceKey(f.device) == Some((e.major, e.minor))
    else e.major == f.major && e.minor == f.minor
  }

  lemma OpSpelling(e: BlkIOEntry)
    ensures OpOf(e) == Read <==> IsRead(e.op)
    ensures OpOf(e) == Write <==> IsWrite(e.op)
  {
    LowerSpelling(e.op);
  }

  lemma LowerSpelling(op: string)
    ensures ToLower(op) == "read" <==> IsRead(op)
    ensures ToLower(op) == "write" <==> IsWrite(op)
  {
    var lower := ToLower(op);
    assert |lower| == |op|;
    if |op| == 4 {
      assert lower == "read" <==> lower[0] == 'r' && lower[1] == 'e' && lower[2] == 'a' && lower[3] == 'd';
    }
    if |op| == 5 {
      assert lower == "write" <==>
        lower[0] == 'w' && lower[1] == 'r' && lower[2] == 'i' && lower[3] == 't' && lower[4] == 'e';
    }
  }

  /** Two entries share a record if and only if they are of the same device. */
  lemma SameKey(e: BlkIOEntry, f: BlkIOEntry)
    ensures KeyOf(e) == KeyOf(f) <==> SameDevice(e, f)
  {
    DeviceKeyInjective(e.major, e.minor, f.major, f.minor);
    DeviceKeyParses(e.device, f.major, f.minor);
    DeviceKeyParses(f.device, e.major, e.minor);
  }

  // ----- The report, from the entries

  function Entries(blkio: BlkIOStat): seq<BlkIOEntry> {
    blkio.serviceBytes + blkio.serviced
  }

  /** The values of the reads, or of the writes, of one device, added up. */
  function Amount(entries: seq<BlkIOEntry>, e: BlkIOEntry, write: bool): nat {
    if entries == [] then 0
    else
      var last := Last(entries);
      Amount(Front(entries), e, write)
      + if SameDevice(e, last) && (if write then IsWrite(last.op) else IsRead(last.op)) then last.value as nat else 0
  }

  /** What is reported for the device of e, which first counts at entry p. */
  function Report(blkio: BlkIOStat, mounts: Index, p: nat): IODeviceUsage
    requires p < |Entries(blkio)|
  {
    var e := Entries(blkio)[p];
    IODeviceUsage(
      mounts.DevicePath(e.major, e.minor), mounts.Mountpoint(e.major, e.minor), e.major, e.minor,
      WrapU(Amount(blkio.serviceBytes, e, false)), WrapU(Amount(blkio.serviceBytes, e, true)),
      WrapU(Amount(blkio.serviced, e, false)), WrapU(Amount(blkio.serviced, e, true)))
  }

  /** The entry at p is the first of its device that counts. */
  predicate IsFirst(entries: seq<BlkIOEntry>, p: nat)
    requires p < |entries|
  {
    Counts(entries[p]) && forall q :: 0 <= q < p ==> !(Counts(entries[q]) && SameDevice(entries[p], entries[q]))
  }

  lemma {:induction false} SumIsAmount(entries: seq<BlkIOEntry>, from: List, e: BlkIOEntry, list: List, write: bool)
    ensures Sum(Tag(entries, from), KeyOf(e), list, if write then Write else Read)
         == if from == list then Amount(entries, e, write) else 0
  {
    if entries != [] {
      var row := RowOf(Last(entries), from);
      SumIsAmount(Front(entries), from, e, list, write);
      assert Tag(entries, from) == Tag(Front(entries), from) + [row];
      FrontOfAppend(Tag(Front(entries), from), row);
      SameKey(e, Last(entries));
      OpSpelling(Last(entries));
    }
  }

  lemma RowsAddUpToAmount(blkio: BlkIOStat, e: BlkIOEntry, write: bool)
    ensures var op := if write then Write else Read;
      && Sum(RowsOf(blkio), KeyOf(e), Bytes, op) == Amount(blkio.serviceBytes, e, write)
      && Sum(RowsOf(blkio), KeyOf(e), IOs, op) == Amount(blkio.serviced, e, write)
  {
    var op := if write then Write else Read;
    SumOfConcat(Tag(blkio.serviceBytes, Bytes), Tag(blkio.serviced, IOs), KeyOf(e), Bytes, op);
    SumOfConcat(Tag(blkio.serviceBytes, Bytes), Tag(blkio.serviced, IOs), KeyOf(e), IOs, op);
    SumIsAmount(blkio.serviceBytes, Bytes, e, Bytes, write);
    SumIsAmount(blkio.serviced, IOs, e, Bytes, write);
    SumIsAmount(blkio.serviceBytes, Bytes, e, IOs, write);
    SumIsAmount(blkio.serviced, IOs, e, IOs, write);
  }

  lemma RowAt(blkio: BlkIOStat, n: nat)
    requires n < |Entries(blkio)|
    ensures |RowsOf(blkio)| == |Entries(blkio)|
    ensures var row, e := RowsOf(blkio)[n], Entries(blkio)[n];
      row.key == KeyOf(e) && row.major == e.major && row.minor == e.minor && (row.op != Other <==> Counts(e))
  {
    OpSpelling(Entries(blkio)[n]);
  }

  /** The first row of a key is the first entry of a device. */
  lemma FirstEntry(blkio: BlkIOStat, key: string)
    requires key in KeysOf(RowsOf(blkio))
    ensures var p := FirstIndex(RowsOf(blkio), key);
      p < |Entries(blkio)| && KeyOf(Entries(blkio)[p]) == key && IsFirst(Entries(blkio), p)
  {
    var rows, entries := RowsOf(blkio), Entries(blkio);
    var p := FirstIndex(rows, key);
    KeysInFirstAppearanceOrder(rows);
    RowAt(blkio, p);
    forall q | 0 <= q < p ensures !(Counts(entries[q]) && SameDevice(entries[p], entries[q])) {
      RowAt(blkio, q);
      SameKey(entries[p], entries[q]);
    }
  }

  lemma RecordIsReport(blkio: BlkIOStat, mounts: Index, key: string)
    requires key in KeysOf(RowsOf(blkio))
    ensures var p := FirstIndex(RowsOf(blkio), key);
      p < |Entries(blkio)| && GroupRecord(RowsOf(blkio), key, mounts) == Report(blkio, mounts, p)
  {
    var p := FirstIndex(RowsOf(blkio), key);
    FirstEntry(blkio, key);
    RowAt(blkio, p);
    RowsAddUpToAmount(blkio, Entries(blkio)[p], false);
    RowsAddUpToAmount(blkio, Entries(blkio)[p], true);
  }

  /** Where the reported devices first count. */
  function Firsts(blkio: BlkIOStat): (firsts: seq<nat>)
    ensures |firsts| == |KeysOf(RowsOf(blkio))|
    ensures forall i :: 0 <= i < |firsts| ==> firsts[i] == FirstIndex(RowsOf(blkio), KeysOf(RowsOf(blkio))[i])
  {
    var keys := KeysOf(RowsOf(blkio));
    seq(|keys|, i requires 0 <= i < |keys| => FirstIndex(RowsOf(blkio), keys[i]))
  }

  lemma FirstsAscend(blkio: BlkIOStat)
    ensures forall i, j :: 0 <= i < j < |Firsts(blkio)| ==> Firsts(blkio)[i] < Firsts(blkio)[j]
  {
    KeysInFirstAppearanceOrder(RowsOf(blkio));
  }

  /** Every entry that counts belongs to a record. */
  lemma IsReported(blkio: BlkIOStat, n: nat) returns (i: nat)
    requires n < |Entries(blkio)| && Counts(Entries(blkio)[n])
    ensures i < |Firsts(blkio)| && Firsts(blkio)[i] <= n && Firsts(blkio)[i] < |Entries(blkio)|
    ensures SameDevice(Entries(blkio)[Firsts(blkio)[i]], Entries(blkio)[n])
  {
    var keys := KeysOf(RowsOf(blkio));
    RowAt(blkio, n);
    KeysInFirstAppearanceOrder(RowsOf(blkio));
    i :| i < |keys| && keys[i] == KeyOf(Entries(blkio)[n]);
    FirstEntry(blkio, keys[i]);
    SameKey(Entries(blkio)[Firsts(blkio)[i]], Entries(blkio)[n]);
  }

  /** The whole report, from the entries alone: one record per device, in the order in which devices first count,
      with the numbers of that first entry and the sums of the device's reads and writes in the two lists; every
      counted entry belongs to one of the records. */
  lemma ReportIsGrouping(blkio: BlkIOStat, mounts: Index) returns (firsts: seq<nat>)
    ensures var usage, entries := V1IOUsage(Some(blkio), mounts), Entries(blkio);
      && |firsts| == |usage|
      && (forall i :: 0 <= i < |firsts| ==>
            firsts[i] < |entries| && IsFirst(entries, firsts[i]) && usage[i] == Report(blkio, mounts, firsts[i]))
      && (forall i, j :: 0 <= i < j < |firsts| ==> firsts[i] < firsts[j])
      && (forall n :: 0 <= n < |entries| && Counts(entries[n]) ==>
            exists i :: 0 <= i < |firsts| && firsts[i] <= n && SameDevice(entries[firsts[i]], entries[n]))
  {
    var keys := KeysOf(RowsOf(blkio));
    firsts := Firsts(blkio);
    FirstsAscend(blkio);
    forall i | 0 <= i < |firsts|
      ensures firsts[i] < |Entries(blkio)| && IsFirst(Entries(blkio), firsts[i])
           && V1IOUsage(Some(blkio), mounts)[i] == Report(blkio, mounts, firsts[i])
    {
      FirstEntry(blkio, keys[i]);
      RecordIsReport(blkio, mounts, keys[i]);
    }
    forall n | 0 <= n < |Entries(blkio)| && Counts(Entries(blkio)[n])
      ensures exists i :: 0 <= i < |firsts| && firsts[i] <= n
                       && SameDevice(Entries(blkio)[firsts[i]], Entries(blkio)[n])
    {
      var i := IsReported(blkio, n);
    }
  }

  // ----- Entries with any other operation

  function Counted(entries: seq<BlkIOEntry>): seq<BlkIOEntry> {
    if entries == [] then []
    else Counted(Front(entries)) + if Counts(Last(entries)) then [Last(entries)] else []
  }

  lemma {:induction false} CountedTags(entries: seq<BlkIOEntry>, list: List)
    ensures CountedRows(Tag(entries, list)) == Tag(Counted(entries), list)
  {
    if entries != [] {
      var row := RowOf(Last(entries), list);
      CountedTags(Front(entries), list);
      OpSpelling(Last(entries));
      assert Tag(entries, list) == Tag(Front(entries), list) + [row];
      FrontOfAppend(Tag(Front(entries), list), row);
    }
  }

  lemma {:induction false} CountedOfConcat(a: seq<Row>, b: seq<Row>)
    ensures CountedRows(a + b) == CountedRows(a) + CountedRows(b)
  {
    if b == [] {
      assert a + b == a;
    } else {
      assert Front(a + b) == a + Front(b) && Last(a + b) == Last(b);
      CountedOfConcat(a, Front(b));
    }
  }

  /** Removing all entries whose operation does not spell read or write leaves the report unchanged. */
  lemma OtherEntriesAreInert(blkio: BlkIOStat, mounts: Index)
    ensures V1IOUsage(Some(BlkIOStat(Counted(blkio.serviceBytes), Counted(blkio.serviced))), mounts)
         == V1IOUsage(Some(blkio), mounts)
  {
    CountedTags(blkio.serviceBytes, Bytes);
    CountedTags(blkio.serviced, IOs);
    CountedOfConcat(Tag(blkio.serviceBytes, Bytes), Tag(blkio.serviced, IOs));
    OtherRowsAreInert(RowsOf(blkio), mounts);
  }

  // ----- Memory and swap

  function Max(x: U64, y: U64): U64 {
    if x < y then y else x
  }

  /** In v1 statistics memory is what was measured, and memory and swap together are the larger of the two
      measurements: the measured sum, unless that is inconsistent. */
  lemma V1MemoryAndSwap(m: V1Metrics, mounts: Index)
    ensures var s := V1Stats(m, mounts);
      && s.memoryUsage == m.memory.usage && s.memoryUsage + s.swapUsage == Max(m.swap.usage, m.memory.usage)
      && s.memoryMaxUsage == m.memory.max && s.memoryMaxUsage + s.swapMaxUsage == Max(m.swap.max, m.memory.max)
      && s.memoryLimit == m.memory.limit && s.memoryLimit + s.swapLimit == Max(m.swap.limit, m.memory.limit)
      && (m.cpuTotal < 0x8000_0000_0000_0000 ==> s.cpuUsage == m.cpuTotal)
  {
  }
}

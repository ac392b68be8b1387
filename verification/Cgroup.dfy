/** cgroup/stats.go: cgroup v1 and v2 statistics, with the v1 block-IO aggregation. */
module Cgroup {
  import opened Prelude
  import opened Decimal
  import opened MountInfo

  datatype IODeviceUsage = IODeviceUsage(
    devicePath: string, mountpoint: string, major: U64, minor: U64,
    readBytes: U64, writeBytes: U64, readIOs: U64, writeIOs: U64)

  datatype Stats = Stats(
    cpuUsage: I64, memoryUsage: U64, memoryMaxUsage: U64, memoryLimit: U64,
    swapUsage: U64, swapMaxUsage: U64, swapLimit: U64, ioUsage: seq<IODeviceUsage>)

  const ZERO_STATS := Stats(0, 0, 0, 0, 0, 0, 0, [])

  // ----- Inputs

  datatype BlkIOEntry = BlkIOEntry(device: string, major: U64, minor: U64, op: string, value: U64)

  datatype BlkIOStat = BlkIOStat(serviceBytes: seq<BlkIOEntry>, serviced: seq<BlkIOEntry>)

  datatype IOEntry = IOEntry(major: U64, minor: U64, rbytes: U64, wbytes: U64, rios: U64, wios: U64)

  /** strings.ToLower as far as a comparison with an ASCII word can see it: the letters A to Z and the two
      other code points whose lower case is an ASCII letter. */
  function ToLower(s: string): string {
    seq(|s|, i requires 0 <= i < |s| =>
      if 'A' <= s[i] <= 'Z' then (s[i] as int + 32) as char
      else if s[i] == '\U{0130}' then 'i'
      else if s[i] == '\U{212A}' then 'k'
      else s[i])
  }

  function KeyOf(e: BlkIOEntry): string {
    if e.device == "" then DeviceKey(e.major, e.minor) else e.device
  }

  datatype Op = Read | Write | Other

  function OpOf(e: BlkIOEntry): Op {
    var op := ToLower(e.op);
    if op == "read" then Read else if op == "write" then Write else Other
  }

  /** Which of the two lists a row comes from. */
  datatype List = Bytes | IOs

  /** What the aggregation uses of an entry. */
  datatype Row = Row(key: string, major: U64, minor: U64, op: Op, value: U64, list: List)

  function RowOf(e: BlkIOEntry, list: List): Row {
    Row(KeyOf(e), e.major, e.minor, OpOf(e), e.value, list)
  }

  function Tag(entries: seq<BlkIOEntry>, list: List): seq<Row> {
    seq(|entries|, i requires 0 <= i < |entries| => RowOf(entries[i], list))
  }

  /** All rows in the order in which the two loops visit them. */
  function RowsOf(blkio: BlkIOStat): seq<Row> {
    Tag(blkio.serviceBytes, Bytes) + Tag(blkio.serviced, IOs)
  }

  // ----- Reference: group by key

  /** The distinct keys of the counted rows, in order of first appearance. */
  function KeysOf(rows: seq<Row>): seq<string> {
    if rows == [] then []
    else
      var before, row := KeysOf(Front(rows)), Last(rows);
      if row.op != Other && row.key !in before then before + [row.key] else before
  }

  /** The position of the row that brought the key in. */
  function FirstIndex(rows: seq<Row>, key: string): (i: nat)
    requires key in KeysOf(rows)
    ensures i < |rows|
  {
    if key in KeysOf(Front(rows)) then FirstIndex(Front(rows), key) else |rows| - 1
  }

  /** The value a row adds to the counter of one key, list and operation. */
  function Contribution(row: Row, key: string, list: List, op: Op): U64 {
    if row.key == key && row.list == list && row.op == op then row.value else 0
  }

  /** The exact sum of the rows of one list with this key and operation. */
  function Sum(rows: seq<Row>, key: string, list: List, op: Op): nat {
    if rows == [] then 0 else Sum(Front(rows), key, list, op) + Contribution(Last(rows), key, list, op) as nat
  }

  function GroupRecord(rows: seq<Row>, key: string, mounts: Index): IODeviceUsage
    requires key in KeysOf(rows)
  {
    var first := rows[FirstIndex(rows, key)];
    IODeviceUsage(
      mounts.DevicePath(first.major, first.minor), mounts.Mountpoint(first.major, first.minor),
      first.major, first.minor,
      WrapU(Sum(rows, key, Bytes, Read)), WrapU(Sum(rows, key, Bytes, Write)),
      WrapU(Sum(rows, key, IOs, Read)), WrapU(Sum(rows, key, IOs, Write)))
  }

  function GroupBy(rows: seq<Row>, mounts: Index): (usage: seq<IODeviceUsage>)
    ensures |usage| == |KeysOf(rows)|
  {
    seq(|KeysOf(rows)|, i requires 0 <= i < |KeysOf(rows)| => GroupRecord(rows, KeysOf(rows)[i], mounts))
  }

  /** What cgroupV1IOUsage reports; a missing blkio section has no devices. */
  function V1IOUsage(blkio: Option<BlkIOStat>, mounts: Index): seq<IODeviceUsage> {
    if blkio.None? then [] else GroupBy(RowsOf(blkio.value), mounts)
  }

  // ----- The aggregation in the source's form: mutable records behind a map, and the order of creation

  class DeviceRecord {
    const devicePath: string
    const mountpoint: string
    const major: U64
    const minor: U64
    var readBytes: U64
    var writeBytes: U64
    var readIOs: U64
    var writeIOs: U64

    ghost function View(): IODeviceUsage
      reads this
    {
      IODeviceUsage(devicePath, mountpoint, major, minor, readBytes, writeBytes, readIOs, writeIOs)
    }

    constructor (entry: BlkIOEntry, mounts: Index)
      ensures View() == NewRecord(entry.major, entry.minor, mounts)
    {
      devicePath := mounts.DevicePath(entry.major, entry.minor);
      mountpoint := mounts.Mountpoint(entry.major, entry.minor);
      major, minor := entry.major, entry.minor;
      readBytes, writeBytes, readIOs, writeIOs := 0, 0, 0, 0;
    }

    /** The two update callbacks. */
    method Add(list: List, op: Op, value: U64)
      modifies this
      ensures View() == Bump(old(View()), list, op, value)
    {
      match list {
        case Bytes =>
          match op {
            case Read => readBytes := WrapU(readBytes + value);
            case Write => writeBytes := WrapU(writeBytes + value);
            case Other =>
          }
        case IOs =>
          match op {
            case Read => readIOs := WrapU(readIOs + value);
            case Write => writeIOs := WrapU(writeIOs + value);
            case Other =>
          }
      }
    }
  }

  function NewRecord(major: U64, minor: U64, mounts: Index): IODeviceUsage {
    IODeviceUsage(mounts.DevicePath(major, minor), mounts.Mountpoint(major, minor), major, minor, 0, 0, 0, 0)
  }

  function Bump(u: IODeviceUsage, list: List, op: Op, value: U64): IODeviceUsage {
    match (list, op)
    case (Bytes, Read) => u.(readBytes := WrapU(u.readBytes + value))
    case (Bytes, Write) => u.(writeBytes := WrapU(u.writeBytes + value))
    case (IOs, Read) => u.(readIOs := WrapU(u.readIOs + value))
    case (IOs, Write) => u.(writeIOs := WrapU(u.writeIOs + value))
    case (_, Other) => u
  }

  /** The values behind the map of records, and the order slice. */
  datatype Table = Table(devices: map<string, IODeviceUsage>, order: seq<string>)

  function AddRow(t: Table, row: Row, mounts: Index): Table {
    if row.op == Other then t
    else
      var record := if row.key in t.devices then t.devices[row.key] else NewRecord(row.major, row.minor, mounts);
      Table(t.devices[row.key := Bump(record, row.list, row.op, row.value)],
            if row.key in t.devices then t.order else t.order + [row.key])
  }

  /** Adding a row first makes sure of the record and then adds to it. */
  lemma AddRowInTwo(t: Table, row: Row, mounts: Index, found: Table)
    requires row.op != Other
    requires found == if row.key in t.devices then t
                      else Table(t.devices[row.key := NewRecord(row.major, row.minor, mounts)], t.order + [row.key])
    ensures row.key in found.devices
    ensures AddRow(t, row, mounts)
         == Table(found.devices[row.key := Bump(found.devices[row.key], row.list, row.op, row.value)], found.order)
  {
    var bumped := Bump(found.devices[row.key], row.list, row.op, row.value);
    assert AddRow(t, row, mounts).devices == found.devices[row.key := bumped];
  }

  function TableOf(rows: seq<Row>, mounts: Index): Table {
    if rows == [] then Table(map[], []) else AddRow(TableOf(Front(rows), mounts), Last(rows), mounts)
  }

  lemma TableStep(done: seq<Row>, entries: seq<BlkIOEntry>, i: nat, list: List, mounts: Index)
    requires i < |entries|
    ensures TableOf(done + Tag(entries[..i + 1], list), mounts)
         == AddRow(TableOf(done + Tag(entries[..i], list), mounts), RowOf(entries[i], list), mounts)
  {
    var before := done + Tag(entries[..i], list);
    assert done + Tag(entries[..i + 1], list) == before + [RowOf(entries[i], list)];
    FrontOfAppend(before, RowOf(entries[i], list));
  }

  /** The order slice lists exactly the map's keys, once each, and no two keys share a record. */
  ghost predicate Listed(devices: map<string, DeviceRecord>, order: seq<string>) {
    && (forall key :: key in devices <==> key in order)
    && (forall i, j :: 0 <= i < j < |order| ==> order[i] != order[j])
    && (forall k, l :: k in devices && l in devices && k != l ==> devices[k] != devices[l])
  }

  lemma ListedInsert(devices: map<string, DeviceRecord>, order: seq<string>, key: string, record: DeviceRecord)
    requires Listed(devices, order) && key !in devices && record !in devices.Values
    ensures Listed(devices[key := record], order + [key])
    ensures devices[key := record].Values <= devices.Values + {record}
  {
    forall k | k in devices ensures devices[k] != record {
      assert devices[k] in devices.Values;
    }
  }

  class Aggregation {
    const mounts: Index
    var devices: map<string, DeviceRecord>
    var order: seq<string>

    ghost predicate Valid()
      reads this
    {
      Listed(devices, order)
    }

    ghost function View(): Table
      reads this, devices.Values
    {
      Table(map key | key in devices :: devices[key].View(), order)
    }

    constructor (mounts: Index)
      ensures Valid() && View() == Table(map[], []) && this.mounts == mounts
      ensures devices == map[]
    {
      this.mounts := mounts;
      devices, order := map[], [];
    }

    /** The middle of updateCgroupV1Device: makes sure the key has a record, creating and listing it. */
    method FindOrCreate(key: string, entry: BlkIOEntry)
      requires Valid()
      modifies this
      ensures Valid() && key in devices
      ensures View() == if key in old(devices) then old(View())
                        else Table(old(View()).devices[key := NewRecord(entry.major, entry.minor, mounts)],
                                   old(order) + [key])
      ensures fresh(devices.Values - old(devices.Values))
    {
      if key !in devices {
        var record := new DeviceRecord(entry, mounts);
        assert View() == old(View());
        Insert(key, record);
      }
    }

    /** Lists a record that is not in the table yet. */
    method Insert(key: string, record: DeviceRecord)
      requires Valid() && key !in devices && record !in devices.Values
      modifies this
      ensures Valid() && key in devices
      ensures View() == Table(old(View()).devices[key := record.View()], old(order) + [key])
      ensures devices.Values <= old(devices.Values) + {record}
    {
      ListedInsert(devices, order, key, record);
      devices := devices[key := record];
      order := order + [key];
    }

    /** The call of the update callback on the record of a key. */
    method AddTo(key: string, list: List, op: Op, value: U64)
      requires Valid() && key in devices
      modifies devices[key]
      ensures Valid()
      ensures View() == Table(old(View()).devices[key := Bump(old(View()).devices[key], list, op, value)], order)
    {
      devices[key].Add(list, op, value);
      assert forall k :: k in devices && k != key ==> devices[k].View() == old(devices[k].View());
    }

    /** updateCgroupV1Device. */
    method Update(entry: BlkIOEntry, list: List)
      requires Valid()
      modifies this, devices.Values
      ensures Valid() && View() == AddRow(old(View()), RowOf(entry, list), mounts)
      ensures fresh(devices.Values - old(devices.Values))
    {
      var op := OpOf(entry);
      if op == Other {
        return;
      }
      var key := KeyOf(entry);
      ghost var before := View();
      FindOrCreate(key, entry);
      AddRowInTwo(before, RowOf(entry, list), mounts, View());
      assert devices[key] in devices.Values;
      AddTo(key, list, op, entry.value);
    }

    /** One loop of cgroupV1IOUsage, over one of the two lists. */
    method Feed(entries: seq<BlkIOEntry>, list: List, ghost done: seq<Row>)
      requires Valid() && View() == TableOf(done, mounts)
      modifies this, devices.Values
      ensures Valid() && View() == TableOf(done + Tag(entries, list), mounts)
      ensures fresh(devices.Values - old(devices.Values))
    {
      assert done + Tag(entries[..0], list) == done;
      ghost var table := View();
      for i := 0 to |entries|
        invariant Valid() && View() == table
        invariant table == TableOf(done + Tag(entries[..i], list), mounts)
        invariant fresh(devices.Values - old(devices.Values))
      {
        TableStep(done, entries, i, list, mounts);
        Update(entries[i], list);
        table := AddRow(table, RowOf(entries[i], list), mounts);
      }
      assert entries[..|entries|] == entries;
    }

    /** The final loop: the records' values in order of creation. */
    method Collect() returns (usage: seq<IODeviceUsage>)
      requires Valid()
      ensures |usage| == |View().order|
      ensures forall i :: 0 <= i < |usage| ==> View().order[i] in View().devices
      ensures forall i :: 0 <= i < |usage| ==> usage[i] == View().devices[View().order[i]]
    {
      usage := [];
      for i := 0 to |order|
        invariant |usage| == i
        invariant forall j :: 0 <= j < i ==> usage[j] == devices[order[j]].View()
      {
        var record := devices[order[i]];
        usage := usage + [IODeviceUsage(record.devicePath, record.mountpoint, record.major, record.minor,
                                        record.readBytes, record.writeBytes, record.readIOs, record.writeIOs)];
      }
    }
  }

  method CgroupV1IOUsage(blkio: Option<BlkIOStat>, mounts: Index) returns (usage: seq<IODeviceUsage>)
    ensures usage == V1IOUsage(blkio, mounts)
  {
    if blkio.None? {
      return [];
    }
    ghost var bytes, ios := Tag(blkio.value.serviceBytes, Bytes), Tag(blkio.value.serviced, IOs);
    var table := new Aggregation(mounts);
    table.Feed(blkio.value.serviceBytes, Bytes, []);
    assert [] + bytes == bytes;
    table.Feed(blkio.value.serviced, IOs, bytes);
    usage := table.Collect();
    TableIsGroupBy(bytes + ios, mounts);
    assert usage == GroupBy(bytes + ios, mounts);
  }

  method CgroupV2IOUsage(io: Option<seq<IOEntry>>, mounts: Index) returns (usage: seq<IODeviceUsage>)
    ensures usage == V2IOUsage(io, mounts)
  {
    usage := [];
    if io.Some? {
      for i := 0 to |io.value|
        invariant usage == V2IOUsage(Some(io.value[..i]), mounts)
      {
        var e := io.value[i];
        usage := usage + [V2Record(e, mounts)];
      }
      assert io.value[..|io.value|] == io.value;
    }
  }

  function V2Record(e: IOEntry, mounts: Index): IODeviceUsage {
    IODeviceUsage(mounts.DevicePath(e.major, e.minor), mounts.Mountpoint(e.major, e.minor),
                  e.major, e.minor, e.rbytes, e.wbytes, e.rios, e.wios)
  }

  function V2IOUsage(io: Option<seq<IOEntry>>, mounts: Index): seq<IODeviceUsage> {
    if io.None? then [] else seq(|io.value|, i requires 0 <= i < |io.value| => V2Record(io.value[i], mounts))
  }

  // ----- Whole statistics

  datatype MemoryEntry = MemoryEntry(usage: U64, max: U64, limit: U64)

  /** What is read of the v1 metrics; the getters report zeros for a missing section. */
  datatype V1Metrics = V1Metrics(cpuTotal: U64, memory: MemoryEntry, swap: MemoryEntry, blkio: Option<BlkIOStat>)

  datatype V2Metrics = V2Metrics(usageUsec: U64, memoryUsage: U64, memoryLimit: U64,
                                 swapUsage: U64, swapLimit: U64, io: Option<seq<IOEntry>>)

  /** cgroupV1SwapMetric: v1 counts memory within swap. */
  function V1SwapMetric(memoryAndSwap: U64, memory: U64): U64 {
    if memoryAndSwap < memory then 0 else memoryAndSwap - memory
  }

  function V1Stats(m: V1Metrics, mounts: Index): Stats {
    Stats(WrapI(m.cpuTotal), m.memory.usage, m.memory.max, m.memory.limit,
          V1SwapMetric(m.swap.usage, m.memory.usage),
          V1SwapMetric(m.swap.max, m.memory.max),
          V1SwapMetric(m.swap.limit, m.memory.limit),
          V1IOUsage(m.blkio, mounts))
  }

  function V2Stats(m: V2Metrics, mounts: Index): Stats {
    Stats(WrapI(WrapI(m.usageUsec) * 1000), m.memoryUsage, 0, m.memoryLimit,
          m.swapUsage, 0, m.swapLimit, V2IOUsage(m.io, mounts))
  }

  // ----- The loop refines the grouping

  /** A stored counter after one more row. */
  lemma CounterStep(rows: seq<Row>, key: string, list: List, op: Op, stored: U64)
    requires rows != [] && op != Other
    requires stored == if key in KeysOf(Front(rows)) then WrapU(Sum(Front(rows), key, list, op)) else 0
    ensures WrapU(Sum(rows, key, list, op)) == WrapU(stored + Contribution(Last(rows), key, list, op))
  {
    var before, added := Sum(Front(rows), key, list, op), Contribution(Last(rows), key, list, op);
    assert Sum(rows, key, list, op) == before + added;
    if key in KeysOf(Front(rows)) {
      WrapUAdd(before, added);
    } else {
      NoRowsNoSum(Front(rows), key, list, op);
    }
  }

  /** Adding a row to a record adds its contribution to each of the four counters. */
  lemma BumpAddsContributions(u: IODeviceUsage, row: Row)
    requires row.op != Other
    ensures Bump(u, row.list, row.op, row.value) == u.(
      readBytes := WrapU(u.readBytes + Contribution(row, row.key, Bytes, Read)),
      writeBytes := WrapU(u.writeBytes + Contribution(row, row.key, Bytes, Write)),
      readIOs := WrapU(u.readIOs + Contribution(row, row.key, IOs, Read)),
      writeIOs := WrapU(u.writeIOs + Contribution(row, row.key, IOs, Write)))
  {
  }

  /** A row leaves every group it does not belong to alone. */
  lemma OtherGroupsStay(rows: seq<Row>, key: string, mounts: Index)
    requires rows != [] && key in KeysOf(rows)
    requires Last(rows).op == Other || key != Last(rows).key
    ensures key in KeysOf(Front(rows)) && GroupRecord(rows, key, mounts) == GroupRecord(Front(rows), key, mounts)
  {
    forall list, op | op != Other ensures Sum(rows, key, list, op) == Sum(Front(rows), key, list, op) {
      assert Contribution(Last(rows), key, list, op) == 0;
    }
  }

  lemma FirstRowStep(rows: seq<Row>)
    requires rows != [] && Last(rows).op != Other
    ensures var before, row := Front(rows), Last(rows);
      && row.key in KeysOf(rows)
      && rows[FirstIndex(rows, row.key)]
           == if row.key in KeysOf(before) then before[FirstIndex(before, row.key)] else row
  {
  }

  /** A row extends the group it belongs to by its value, or starts it. */
  lemma OwnGroupGrows(rows: seq<Row>, mounts: Index, record: IODeviceUsage)
    requires rows != [] && Last(rows).op != Other
    requires record == if Last(rows).key in KeysOf(Front(rows)) then GroupRecord(Front(rows), Last(rows).key, mounts)
                       else NewRecord(Last(rows).major, Last(rows).minor, mounts)
    ensures Last(rows).key in KeysOf(rows)
    ensures GroupRecord(rows, Last(rows).key, mounts)
         == Bump(record, Last(rows).list, Last(rows).op, Last(rows).value)
  {
    var row := Last(rows);
    FirstRowStep(rows);
    OwnCounters(rows, record);
    BumpAddsContributions(record, row);
  }

  /** The four counters of the group that a row belongs to. */
  lemma OwnCounters(rows: seq<Row>, record: IODeviceUsage)
    requires rows != [] && Last(rows).op != Other
    requires var before, key := Front(rows), Last(rows).key;
      if key in KeysOf(before) then
        && record.readBytes == WrapU(Sum(before, key, Bytes, Read))
        && record.writeBytes == WrapU(Sum(before, key, Bytes, Write))
        && record.readIOs == WrapU(Sum(before, key, IOs, Read))
        && record.writeIOs == WrapU(Sum(before, key, IOs, Write))
      else record.readBytes == record.writeBytes == record.readIOs == record.writeIOs == 0
    ensures var row := Last(rows);
      && WrapU(Sum(rows, row.key, Bytes, Read)) == WrapU(record.readBytes + Contribution(row, row.key, Bytes, Read))
      && WrapU(Sum(rows, row.key, Bytes, Write)) == WrapU(record.writeBytes + Contribution(row, row.key, Bytes, Write))
      && WrapU(Sum(rows, row.key, IOs, Read)) == WrapU(record.readIOs + Contribution(row, row.key, IOs, Read))
      && WrapU(Sum(rows, row.key, IOs, Write)) == WrapU(record.writeIOs + Contribution(row, row.key, IOs, Write))
  {
    var key := Last(rows).key;
    CounterStep(rows, key, Bytes, Read, record.readBytes);
    CounterStep(rows, key, Bytes, Write, record.writeBytes);
    CounterStep(rows, key, IOs, Read, record.readIOs);
    CounterStep(rows, key, IOs, Write, record.writeIOs);
  }

  lemma {:induction false} TableIsGroupBy(rows: seq<Row>, mounts: Index)
    ensures var t := TableOf(rows, mounts);
      && t.order == KeysOf(rows)
      && (forall key :: key in t.devices <==> key in KeysOf(rows))
      && (forall key :: key in t.devices ==> t.devices[key] == GroupRecord(rows, key, mounts))
  {
    if rows != [] {
      TableIsGroupBy(Front(rows), mounts);
      forall key | key in KeysOf(rows)
        ensures key in TableOf(rows, mounts).devices
             && TableOf(rows, mounts).devices[key] == GroupRecord(rows, key, mounts)
      {
        var row := Last(rows);
        if row.op == Other || key != row.key {
          OtherGroupsStay(rows, key, mounts);
        } else {
          var before := TableOf(Front(rows), mounts).devices;
          OwnGroupGrows(rows, mounts, if key in before then before[key] else NewRecord(row.major, row.minor, mounts));
        }
      }
    }
  }

  lemma {:induction false} NoRowsNoSum(rows: seq<Row>, key: string, list: List, op: Op)
    requires key !in KeysOf(rows) && op != Other
    ensures Sum(rows, key, list, op) == 0
  {
    if rows != [] {
      NoRowsNoSum(Front(rows), key, list, op);
    }
  }

  /** KeysOf is what it claims: each key once, each brought in by its first counted row, and ordered by
      those rows. */
  lemma {:induction false} KeysInFirstAppearanceOrder(rows: seq<Row>)
    ensures var keys := KeysOf(rows);
      && (forall i, j :: 0 <= i < j < |keys| ==>
            keys[i] != keys[j] && FirstIndex(rows, keys[i]) < FirstIndex(rows, keys[j]))
      && (forall key :: key in keys ==>
            var i := FirstIndex(rows, key); rows[i].op != Other && rows[i].key == key)
      && (forall r :: 0 <= r < |rows| && rows[r].op != Other ==>
            rows[r].key in keys && FirstIndex(rows, rows[r].key) <= r)
  {
    if rows != [] {
      KeysInFirstAppearanceOrder(Front(rows));
    }
  }
}

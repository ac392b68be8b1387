/** procfs/mountinfo.go: the mount and block-device index, its refresh and its lookups. */
module MountInfo {
  import opened Prelude
  import opened Decimal

  datatype Mount = Mount(majorMinorVer: string, mountPoint: string)

  datatype Dirs = Dirs(sysDevBlock: string, dev: string, devMapper: string)

  /** What one refresh sees of the system: the mount table, the two directory listings and, for each of
      its two symlink passes, the paths that resolve. None is a listing that failed. */
  datatype Reading = Reading(mounts: Option<seq<Mount>>,
                             mapperEntries: Option<seq<string>>, mapperTargets: map<string, string>,
                             blockEntries: Option<seq<string>>, blockTargets: map<string, string>)

  /** The two maps that a successful refresh publishes together. */
  datatype Index = Index(mountInfos: map<string, string>, devices: map<string, string>) {
    function Mountpoint(major: U64, minor: U64): string {
      Get(mountInfos, DeviceKey(major, minor), "")
    }

    function DevicePath(major: U64, minor: U64): string {
      Get(devices, DeviceKey(major, minor), "")
    }
  }

  const EMPTY_INDEX := Index(map[], map[])

  // ----- Paths

  function TrimSlashes(path: string): string {
    if path != "" && Last(path) == '/' then TrimSlashes(Front(path)) else path
  }

  function AfterLastSlash(path: string): string {
    if path == "" || Last(path) == '/' then "" else AfterLastSlash(Front(path)) + [Last(path)]
  }

  /** filepath.Base. */
  function Base(path: string): string {
    if path == "" then "."
    else if TrimSlashes(path) == "" then "/" else AfterLastSlash(TrimSlashes(path))
  }

  /** filepath.Join of a clean directory and one path element. */
  function Join(dir: string, name: string): string {
    if name == "" || name == "." || name == "/" then dir else dir + "/" + name
  }

  // ----- The maps that the loops build

  function MountMap(mounts: seq<Mount>): map<string, string> {
    if mounts == [] then map[]
    else MountMap(Front(mounts))[Last(mounts).majorMinorVer := Last(mounts).mountPoint]
  }

  function MapperMap(dir: string, entries: seq<string>, targets: map<string, string>): Option<map<string, string>> {
    if entries == [] then Some(map[])
    else
      var before := MapperMap(dir, Front(entries), targets);
      var path := Join(dir, Last(entries));
      if before.None? || path !in targets then None else Some(before.value[targets[path] := path])
  }

  /** devicePath: the path of one block device, or None when its symlink does not resolve. */
  function DevicePathOf(dirs: Dirs, key: string, targets: map<string, string>,
                        mapper: map<string, string>): Option<string>
  {
    var link := Join(dirs.sysDevBlock, key);
    if link !in targets then None
    else
      var devicePath := Join(dirs.dev, Base(targets[link]));
      var mapperPath := Get(mapper, devicePath, "");
      Some(if mapperPath != "" then mapperPath else devicePath)
  }

  function DeviceMap(dirs: Dirs, entries: seq<string>, targets: map<string, string>,
                     mapper: map<string, string>): Option<map<string, string>>
  {
    if entries == [] then Some(map[])
    else
      var before := DeviceMap(dirs, Front(entries), targets, mapper);
      var path := DevicePathOf(dirs, Last(entries), targets, mapper);
      if before.None? || path.None? then None else Some(before.value[Last(entries) := path.value])
  }

  /** The index a refresh publishes; None when any of its reads fails. */
  function BuildIndex(dirs: Dirs, r: Reading): Option<Index> {
    if r.mounts.None? || r.mapperEntries.None? then None
    else
      var mapper := MapperMap(dirs.devMapper, r.mapperEntries.value, r.mapperTargets);
      if mapper.None? || r.blockEntries.None? then None
      else
        var devices := DeviceMap(dirs, r.blockEntries.value, r.blockTargets, mapper.value);
        if devices.None? then None else Some(Index(MountMap(r.mounts.value), devices.value))
  }

  class MountInfoReader {
    const dirs: Dirs
    var mountInfos: map<string, string>
    var devices: map<string, string>

    ghost function View(): Index
      reads this
    {
      Index(mountInfos, devices)
    }

    constructor (dirs: Dirs)
      ensures this.dirs == dirs && View() == EMPTY_INDEX
    {
      this.dirs := dirs;
      mountInfos, devices := map[], map[];
    }

    /** Publishes the index of a reading, or leaves the current one when any read fails. */
    method Refresh(r: Reading) returns (ok: bool)
      modifies this
      ensures ok <==> BuildIndex(dirs, r).Some?
      ensures View() == if ok then BuildIndex(dirs, r).value else old(View())
    {
      if r.mounts.None? {
        return false;
      }
      var mapper := MapperPaths(r);
      if mapper.None? {
        return false;
      }
      var paths := DevicePaths(r, mapper.value);
      if paths.None? {
        return false;
      }
      var infos := map[];
      var mounts := r.mounts.value;
      for i := 0 to |mounts|
        invariant infos == MountMap(mounts[..i])
      {
        assert Front(mounts[..i + 1]) == mounts[..i];
        infos := infos[mounts[i].majorMinorVer := mounts[i].mountPoint];
      }
      assert mounts[..|mounts|] == mounts;
      mountInfos, devices := infos, paths.value;
      return true;
    }

    method MapperPaths(r: Reading) returns (paths: Option<map<string, string>>)
      ensures paths == if r.mapperEntries.None? then None
                       else MapperMap(dirs.devMapper, r.mapperEntries.value, r.mapperTargets)
    {
      if r.mapperEntries.None? {
        return None;
      }
      var entries, result := r.mapperEntries.value, map[];
      for i := 0 to |entries|
        invariant MapperMap(dirs.devMapper, entries[..i], r.mapperTargets) == Some(result)
      {
        assert Front(entries[..i + 1]) == entries[..i];
        var path := Join(dirs.devMapper, entries[i]);
        if path !in r.mapperTargets {
          MapperFailurePersists(dirs.devMapper, entries, i + 1, r.mapperTargets);
          return None;
        }
        result := result[r.mapperTargets[path] := path];
      }
      assert entries[..|entries|] == entries;
      return Some(result);
    }

    method DevicePaths(r: Reading, mapper: map<string, string>) returns (paths: Option<map<string, string>>)
      ensures paths == if r.blockEntries.None? then None
                       else DeviceMap(dirs, r.blockEntries.value, r.blockTargets, mapper)
    {
      if r.blockEntries.None? {
        return None;
      }
      var entries, result := r.blockEntries.value, map[];
      for i := 0 to |entries|
        invariant DeviceMap(dirs, entries[..i], r.blockTargets, mapper) == Some(result)
      {
        assert Front(entries[..i + 1]) == entries[..i];
        var path := DevicePathOf(dirs, entries[i], r.blockTargets, mapper);
        if path.None? {
          DeviceFailurePersists(dirs, entries, i + 1, r.blockTargets, mapper);
          return None;
        }
        result := result[entries[i] := path.value];
      }
      assert entries[..|entries|] == entries;
      return Some(result);
    }

    method Mountpoint(major: U64, minor: U64) returns (path: string)
      ensures path == View().Mountpoint(major, minor)
    {
      path := Get(mountInfos, DeviceKey(major, minor), "");
    }

    method DevicePath(major: U64, minor: U64) returns (path: string)
      ensures path == View().DevicePath(major, minor)
    {
      path := Get(devices, DeviceKey(major, minor), "");
    }
  }

  /** A symlink that fails to resolve fails the whole listing. */
  lemma {:induction false} MapperFailurePersists(dir: string, entries: seq<string>, n: nat,
                                                 targets: map<string, string>)
    requires n <= |entries| && MapperMap(dir, entries[..n], targets).None?
    ensures MapperMap(dir, entries, targets).None?
  {
    if n == |entries| {
      assert entries[..n] == entries;
    } else {
      assert Front(entries)[..n] == entries[..n];
      MapperFailurePersists(dir, Front(entries), n, targets);
    }
  }

  lemma {:induction false} DeviceFailurePersists(dirs: Dirs, entries: seq<string>, n: nat,
                                                 targets: map<string, string>, mapper: map<string, string>)
    requires n <= |entries| && DeviceMap(dirs, entries[..n], targets, mapper).None?
    ensures DeviceMap(dirs, entries, targets, mapper).None?
  {
    if n == |entries| {
      assert entries[..n] == entries;
    } else {
      assert Front(entries)[..n] == entries[..n];
      DeviceFailurePersists(dirs, Front(entries), n, targets, mapper);
    }
  }

  // ----- Reference: linear scans that compare device numbers, not keys

  predicate Names(key: string, major: U64, minor: U64) {
    ParseDeviceKey(key) == Some((major, minor))
  }

  /** The mount point of the last line of the mount table for this device. */
  function ScanMounts(mounts: seq<Mount>, major: U64, minor: U64): string {
    if mounts == [] then ""
    else if Names(Last(mounts).majorMinorVer, major, minor) then Last(mounts).mountPoint
    else ScanMounts(Front(mounts), major, minor)
  }

  /** The last mapper alias whose symlink resolves to the device node. */
  function LastAlias(dir: string, entries: seq<string>, targets: map<string, string>, node: string): Option<string> {
    if entries == [] then None
    else
      var path := Join(dir, Last(entries));
      if path in targets && targets[path] == node then Some(path)
      else LastAlias(dir, Front(entries), targets, node)
  }

  /** The path reported for the device: the last alias of its node under /dev, else the node itself. */
  function ScanDevices(dirs: Dirs, r: Reading, entries: seq<string>, major: U64, minor: U64): string
    requires r.mapperEntries.Some?
  {
    if entries == [] then ""
    else
      var link := Join(dirs.sysDevBlock, Last(entries));
      if Names(Last(entries), major, minor) && link in r.blockTargets then
        var node := Join(dirs.dev, Base(r.blockTargets[link]));
        var alias := LastAlias(dirs.devMapper, r.mapperEntries.value, r.mapperTargets, node);
        if alias.Some? then alias.value else node
      else ScanDevices(dirs, r, Front(entries), major, minor)
  }

  lemma {:induction false} MountMapScans(mounts: seq<Mount>, major: U64, minor: U64)
    ensures Get(MountMap(mounts), DeviceKey(major, minor), "") == ScanMounts(mounts, major, minor)
  {
    if mounts != [] {
      MountMapScans(Front(mounts), major, minor);
      DeviceKeyParses(Last(mounts).majorMinorVer, major, minor);
    }
  }

  lemma {:induction false} MapperMapScans(dir: string, entries: seq<string>, targets: map<string, string>, node: string)
    requires MapperMap(dir, entries, targets).Some?
    ensures var m := MapperMap(dir, entries, targets).value;
      (if node in m then Some(m[node]) else None) == LastAlias(dir, entries, targets, node)
  {
    if entries != [] {
      MapperMapScans(dir, Front(entries), targets, node);
    }
  }

  lemma {:induction false} AliasIsNotEmpty(dir: string, entries: seq<string>,
                                           targets: map<string, string>, node: string)
    requires dir != ""
    ensures LastAlias(dir, entries, targets, node) != Some("")
  {
    if entries != [] {
      AliasIsNotEmpty(dir, Front(entries), targets, node);
    }
  }

  lemma {:induction false} DeviceMapScans(dirs: Dirs, r: Reading, entries: seq<string>, major: U64, minor: U64)
    requires dirs.devMapper != "" && r.mapperEntries.Some?
    requires MapperMap(dirs.devMapper, r.mapperEntries.value, r.mapperTargets).Some?
    requires DeviceMap(dirs, entries, r.blockTargets,
               MapperMap(dirs.devMapper, r.mapperEntries.value, r.mapperTargets).value).Some?
    ensures var mapper := MapperMap(dirs.devMapper, r.mapperEntries.value, r.mapperTargets).value;
      Get(DeviceMap(dirs, entries, r.blockTargets, mapper).value, DeviceKey(major, minor), "")
      == ScanDevices(dirs, r, entries, major, minor)
  {
    if entries != [] {
      DeviceMapScans(dirs, r, Front(entries), major, minor);
      DeviceKeyParses(Last(entries), major, minor);
      var link := Join(dirs.sysDevBlock, Last(entries));
      if link in r.blockTargets {
        var node := Join(dirs.dev, Base(r.blockTargets[link]));
        MapperMapScans(dirs.devMapper, r.mapperEntries.value, r.mapperTargets, node);
        AliasIsNotEmpty(dirs.devMapper, r.mapperEntries.value, r.mapperTargets, node);
      }
    }
  }

  /** Both lookups in a built index answer as the scans of what the refresh read. */
  ghost predicate AnswersAs(dirs: Dirs, index: Index, r: Reading) {
    && r.mounts.Some? && r.mapperEntries.Some? && r.blockEntries.Some?
    && forall major: U64, minor: U64 ::
      && index.Mountpoint(major, minor) == ScanMounts(r.mounts.value, major, minor)
      && index.DevicePath(major, minor) == ScanDevices(dirs, r, r.blockEntries.value, major, minor)
  }

  lemma BuiltIndexScans(dirs: Dirs, r: Reading)
    requires dirs.devMapper != "" && BuildIndex(dirs, r).Some?
    ensures AnswersAs(dirs, BuildIndex(dirs, r).value, r)
  {
    var index := BuildIndex(dirs, r).value;
    forall major: U64, minor: U64
      ensures index.Mountpoint(major, minor) == ScanMounts(r.mounts.value, major, minor)
           && index.DevicePath(major, minor) == ScanDevices(dirs, r, r.blockEntries.value, major, minor)
    {
      MountMapScans(r.mounts.value, major, minor);
      DeviceMapScans(dirs, r, r.blockEntries.value, major, minor);
    }
  }

  // ----- Concurrent refreshes: each read is a separate step, publication is one critical section

  datatype Refresher =
    | Idle
    | HasMounts(mounts: seq<Mount>)
    | HasMapper(mounts: seq<Mount>, mapper: map<string, string>)
    | Ready(index: Index)

  datatype System = System(index: Index, refreshers: seq<Refresher>,
                           readings: seq<Reading>,   // what each refresher has read so far
                           published: seq<Reading>)  // the readings behind every publication, in order

  datatype Step =
    | ReadMounts(who: nat, mounts: Option<seq<Mount>>)
    | ReadMapper(who: nat, entries: Option<seq<string>>, targets: map<string, string>)
    | ReadDevices(who: nat, entries: Option<seq<string>>, targets: map<string, string>)
    | Publish(who: nat)

  predicate Enabled(s: System, step: Step) {
    && step.who < |s.refreshers| == |s.readings|
    && match step
       case ReadMounts(w, _) => s.refreshers[w].Idle?
       case ReadMapper(w, _, _) => s.refreshers[w].HasMounts?
       case ReadDevices(w, _, _) => s.refreshers[w].HasMapper?
       case Publish(w) => s.refreshers[w].Ready?
  }

  function Become(s: System, who: nat, refresher: Refresher, reading: Reading): System
    requires who < |s.refreshers| == |s.readings|
  {
    s.(refreshers := s.refreshers[who := refresher], readings := s.readings[who := reading])
  }

  const NOTHING_READ := Reading(None, None, map[], None, map[])

  function Apply(dirs: Dirs, s: System, step: Step): System
    requires Enabled(s, step)
  {
    var phase, reading := s.refreshers[step.who], s.readings[step.who];
    match step
    case ReadMounts(w, mounts) =>
      if mounts.None? then s else Become(s, w, HasMounts(mounts.value), NOTHING_READ.(mounts := mounts))
    case ReadMapper(w, entries, targets) =>
      var mapper := if entries.None? then None else MapperMap(dirs.devMapper, entries.value, targets);
      if mapper.None? then Become(s, w, Idle, NOTHING_READ)
      else Become(s, w, HasMapper(phase.mounts, mapper.value),
                  reading.(mapperEntries := entries, mapperTargets := targets))
    case ReadDevices(w, entries, targets) =>
      var devices := if entries.None? then None else DeviceMap(dirs, entries.value, targets, phase.mapper);
      if devices.None? then Become(s, w, Idle, NOTHING_READ)
      else Become(s, w, Ready(Index(MountMap(phase.mounts), devices.value)),
                  reading.(blockEntries := entries, blockTargets := targets))
    case Publish(w) =>
      Become(s, w, Idle, NOTHING_READ).(index := phase.index, published := s.published + [reading])
  }

  predicate ValidRun(dirs: Dirs, s: System, steps: seq<Step>)
    decreases |steps|
  {
    steps == [] || (Enabled(s, steps[0]) && ValidRun(dirs, Apply(dirs, s, steps[0]), steps[1..]))
  }

  function After(dirs: Dirs, s: System, steps: seq<Step>): System
    requires ValidRun(dirs, s, steps)
    decreases |steps|
  {
    if steps == [] then s else After(dirs, Apply(dirs, s, steps[0]), steps[1..])
  }

  function Start(refreshers: nat): System {
    System(EMPTY_INDEX, seq(refreshers, i => Idle), seq(refreshers, i => NOTHING_READ), [])
  }

  /** The partial results a refresher holds are those of what it has read. */
  predicate Consistent(dirs: Dirs, phase: Refresher, r: Reading) {
    match phase
    case Idle => true
    case HasMounts(mounts) => r.mounts == Some(mounts)
    case HasMapper(mounts, mapper) =>
      && r.mounts == Some(mounts) && r.mapperEntries.Some?
      && MapperMap(dirs.devMapper, r.mapperEntries.value, r.mapperTargets) == Some(mapper)
    case Ready(index) => BuildIndex(dirs, r) == Some(index)
  }

  predicate Inv(dirs: Dirs, s: System) {
    && |s.refreshers| == |s.readings|
    && (forall w :: 0 <= w < |s.refreshers| ==> Consistent(dirs, s.refreshers[w], s.readings[w]))
    && (if s.published == [] then s.index == EMPTY_INDEX
        else BuildIndex(dirs, Last(s.published)) == Some(s.index))
  }

  lemma {:induction false} RunKeepsInv(dirs: Dirs, s: System, steps: seq<Step>)
    requires Inv(dirs, s) && ValidRun(dirs, s, steps)
    ensures Inv(dirs, After(dirs, s, steps))
    decreases |steps|
  {
    if steps != [] {
      RunKeepsInv(dirs, Apply(dirs, s, steps[0]), steps[1..]);
    }
  }

  /** After any interleaving of any number of refreshes, successful or not, every lookup answers as the
      linear scan of the reading published last, and finds nothing before the first publication. */
  lemma LookupsScanLatestPublication(dirs: Dirs, refreshers: nat, steps: seq<Step>)
    requires dirs.devMapper != "" && ValidRun(dirs, Start(refreshers), steps)
    ensures var s := After(dirs, Start(refreshers), steps);
      if s.published == [] then forall major: U64, minor: U64 ::
        s.index.Mountpoint(major, minor) == "" && s.index.DevicePath(major, minor) == ""
      else AnswersAs(dirs, s.index, Last(s.published))
  {
    RunKeepsInv(dirs, Start(refreshers), steps);
    var s := After(dirs, Start(refreshers), steps);
    if s.published != [] {
      BuiltIndexScans(dirs, Last(s.published));
    }
  }
}

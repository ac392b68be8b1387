/** procfs/mountinfo.go: the device paths as strings, when an index is built, and what a run of concurrent
    refreshes says about its steps, told from the steps alone. */
module MountRuns {
  import opened Prelude
  import opened Decimal
  import opened MountInfo

  // ----- Paths

  /** One path element: what a directory lists. */
  predicate IsName(name: string) {
    name != "" && '/' !in name && name != "." && name != ".."
  }

  predicate OnlySlashes(s: string) {
    forall i :: 0 <= i < |s| ==> s[i] == '/'
  }

  /** A clean directory other than the root. */
  predicate IsDir(dir: string) {
    dir != "" && Last(dir) != '/'
  }

  lemma {:induction false} TrimSlashesOver(s: string, slashes: string)
    requires s != "" && Last(s) != '/' && OnlySlashes(slashes)
    ensures TrimSlashes(s + slashes) == s
  {
    if slashes == "" {
      assert s + slashes == s;
    } else {
      assert Front(s + slashes) == s + Front(slashes) && Last(s + slashes) == '/';
      TrimSlashesOver(s, Front(slashes));
    }
  }

  lemma {:induction false} AfterLastSlashOf(dir: string, name: string)
    requires '/' !in name
    ensures AfterLastSlash(dir + "/" + name) == name
  {
    var path := dir + "/" + name;
    if name == "" {
      assert Last(path) == '/';
    } else {
      assert Front(path) == dir + "/" + Front(name) && Last(path) == Last(name);
      assert name == Front(name) + [Last(name)];
      AfterLastSlashOf(dir, Front(name));
    }
  }

  /** The base of a path is its last element, whatever slashes follow it. */
  lemma BaseOfPath(dir: string, name: string, slashes: string)
    requires name != "" && '/' !in name && OnlySlashes(slashes)
    ensures Base(dir + "/" + name + slashes) == name
  {
    var path := dir + "/" + name;
    assert Last(path) == Last(name);
    TrimSlashesOver(path, slashes);
    AfterLastSlashOf(dir, name);
  }

  /** Joining a directory and a name puts one slash between them. */
  lemma JoinOfName(dir: string, name: string)
    requires IsDir(dir) && IsName(name)
    ensures Join(dir, name) == dir + "/" + name
  {
  }

  // ----- Lookups, as strings

  predicate Tidy(dirs: Dirs) {
    IsDir(dirs.sysDevBlock) && IsDir(dirs.dev) && IsDir(dirs.devMapper)
  }

  /** The last of the listed aliases whose symlink resolves to the node. */
  function LastAliasOf(prefix: string, entries: seq<string>, targets: map<string, string>,
                       node: string): Option<string>
  {
    if entries == [] then None
    else
      var path := prefix + Last(entries);
      if path in targets && targets[path] == node then Some(path)
      else LastAliasOf(prefix, Front(entries), targets, node)
  }

  lemma {:induction false} AliasAsString(dir: string, entries: seq<string>, targets: map<string, string>, node: string)
    requires IsDir(dir) && forall e :: e in entries ==> IsName(e)
    ensures LastAlias(dir, entries, targets, node) == LastAliasOf(dir + "/", entries, targets, node)
  {
    if entries != [] {
      JoinOfName(dir, Last(entries));
      AliasAsString(dir, Front(entries), targets, node);
    }
  }

  lemma {:induction false} DigitsAreNames(n: nat)
    ensures FormatUint(n) != "" && '/' !in FormatUint(n) && '.' !in FormatUint(n)
  {
    FormatIsCanonical(n);
    assert !IsDigit('/') && !IsDigit('.');
  }

  lemma KeyIsName(major: U64, minor: U64)
    ensures IsName(DeviceKey(major, minor))
  {
    DigitsAreNames(major);
    DigitsAreNames(minor);
  }

  /** The scan stops at the last entry for the device. */
  lemma {:induction false} ScanStops(dirs: Dirs, r: Reading, entries: seq<string>, n: nat, major: U64, minor: U64)
    requires r.mapperEntries.Some? && n < |entries| && entries[n] == DeviceKey(major, minor)
    requires forall m :: n < m < |entries| ==> entries[m] != DeviceKey(major, minor)
    requires Join(dirs.sysDevBlock, entries[n]) in r.blockTargets
    ensures ScanDevices(dirs, r, entries, major, minor) == ScanDevices(dirs, r, [entries[n]], major, minor)
  {
    DeviceKeyParses(Last(entries), major, minor);
    if n < |entries| - 1 {
      ScanStops(dirs, r, Front(entries), n, major, minor);
    } else {
      DeviceKeyParses(entries[n], major, minor);
    }
  }

  /** The device path that a built index answers with, as a string: for the last listed entry of the device whose
      symlink leads to an element called name of any directory, the last alias of name under /dev, or name under
      /dev itself when it has none. */
  lemma DevicePathAsString(dirs: Dirs, r: Reading, n: nat, major: U64, minor: U64, dir: string, name: string)
    requires Tidy(dirs) && BuildIndex(dirs, r).Some?
    requires r.blockEntries.Some? && r.mapperEntries.Some? && forall e :: e in r.mapperEntries.value ==> IsName(e)
    requires n < |r.blockEntries.value| && r.blockEntries.value[n] == DeviceKey(major, minor)
    requires forall m :: n < m < |r.blockEntries.value| ==> r.blockEntries.value[m] != DeviceKey(major, minor)
    requires var link := dirs.sysDevBlock + "/" + DeviceKey(major, minor);
      link in r.blockTargets && r.blockTargets[link] == dir + "/" + name
    requires IsName(name)
    ensures var node := dirs.dev + "/" + name;
      var alias := LastAliasOf(dirs.devMapper + "/", r.mapperEntries.value, r.mapperTargets, node);
      BuildIndex(dirs, r).value.DevicePath(major, minor) == if alias.Some? then alias.value else node
  {
    var key := DeviceKey(major, minor);
    KeyIsName(major, minor);
    JoinOfName(dirs.sysDevBlock, key);
    BuiltIndexScans(dirs, r);
    ScanStops(dirs, r, r.blockEntries.value, n, major, minor);
    DeviceKeyParses(key, major, minor);
    assert dir + "/" + name + "" == dir + "/" + name;
    BaseOfPath(dir, name, "");
    JoinOfName(dirs.dev, name);
    AliasAsString(dirs.devMapper, r.mapperEntries.value, r.mapperTargets, dirs.dev + "/" + name);
  }

  /** A device that is not listed has no path. */
  lemma {:induction false} UnlistedHasNoPath(dirs: Dirs, r: Reading, entries: seq<string>, major: U64, minor: U64)
    requires r.mapperEntries.Some? && DeviceKey(major, minor) !in entries
    ensures ScanDevices(dirs, r, entries, major, minor) == ""
  {
    if entries != [] {
      DeviceKeyParses(Last(entries), major, minor);
      UnlistedHasNoPath(dirs, r, Front(entries), major, minor);
    }
  }

  // ----- When an index is built

  predicate AllResolve(dir: string, entries: seq<string>, targets: map<string, string>) {
    forall e :: e in entries ==> Join(dir, e) in targets
  }

  lemma AllResolveStep(dir: string, entries: seq<string>, targets: map<string, string>)
    requires entries != []
    ensures AllResolve(dir, entries, targets) <==>
      AllResolve(dir, Front(entries), targets) && Join(dir, Last(entries)) in targets
  {
    assert entries == Front(entries) + [Last(entries)];
  }

  lemma {:induction false} MapperMapBuilt(dir: string, entries: seq<string>, targets: map<string, string>)
    ensures MapperMap(dir, entries, targets).Some? <==> AllResolve(dir, entries, targets)
  {
    if entries != [] {
      MapperMapBuilt(dir, Front(entries), targets);
      AllResolveStep(dir, entries, targets);
    }
  }

  lemma {:induction false} DeviceMapBuilt(dirs: Dirs, entries: seq<string>, targets: map<string, string>,
                                          mapper: map<string, string>)
    ensures DeviceMap(dirs, entries, targets, mapper).Some? <==> AllResolve(dirs.sysDevBlock, entries, targets)
  {
    if entries != [] {
      DeviceMapBuilt(dirs, Front(entries), targets, mapper);
      AllResolveStep(dirs.sysDevBlock, entries, targets);
    }
  }

  /** An index is built if and only if all three listings succeed and every listed symlink resolves. */
  lemma BuiltIffAllReadsSucceed(dirs: Dirs, r: Reading)
    ensures BuildIndex(dirs, r).Some? <==>
      && r.mounts.Some? && r.mapperEntries.Some? && r.blockEntries.Some?
      && AllResolve(dirs.devMapper, r.mapperEntries.value, r.mapperTargets)
      && AllResolve(dirs.sysDevBlock, r.blockEntries.value, r.blockTargets)
  {
    if r.mapperEntries.Some? && r.blockEntries.Some? {
      MapperMapBuilt(dirs.devMapper, r.mapperEntries.value, r.mapperTargets);
      if MapperMap(dirs.devMapper, r.mapperEntries.value, r.mapperTargets).Some? {
        DeviceMapBuilt(dirs, r.blockEntries.value, r.blockTargets,
                       MapperMap(dirs.devMapper, r.mapperEntries.value, r.mapperTargets).value);
      }
    }
  }

  // ----- Runs of concurrent refreshes

  lemma {:induction false} LastStep(dirs: Dirs, s: System, steps: seq<Step>)
    requires steps != [] && ValidRun(dirs, s, steps)
    ensures ValidRun(dirs, s, Front(steps)) && Enabled(After(dirs, s, Front(steps)), Last(steps))
    ensures After(dirs, s, steps) == Apply(dirs, After(dirs, s, Front(steps)), Last(steps))
    decreases |steps|
  {
    if |steps| > 1 {
      LastStep(dirs, Apply(dirs, s, steps[0]), steps[1..]);
      assert Front(steps)[0] == steps[0] && Front(steps)[1..] == Front(steps[1..]);
    } else {
      assert Front(steps) == [] && steps[1..] == [];
    }
  }

  lemma {:induction false} RunSnoc(dirs: Dirs, s: System, steps: seq<Step>, step: Step)
    requires ValidRun(dirs, s, steps) && Enabled(After(dirs, s, steps), step)
    ensures ValidRun(dirs, s, steps + [step])
    ensures After(dirs, s, steps + [step]) == Apply(dirs, After(dirs, s, steps), step)
    decreases |steps|
  {
    if steps == [] {
      assert steps + [step] == [step];
    } else {
      assert (steps + [step])[1..] == steps[1..] + [step];
      RunSnoc(dirs, Apply(dirs, s, steps[0]), steps[1..], step);
    }
  }

  /** The steps of one refresher. */
  function Own(steps: seq<Step>, w: nat): seq<Step> {
    if steps == [] then [] else Own(Front(steps), w) + if Last(steps).who == w then [Last(steps)] else []
  }

  /** The last n reads of a refresher, mount table first, are those of this reading. */
  predicate HasRead(own: seq<Step>, w: nat, n: nat, r: Reading) {
    && n <= |own|
    && (n >= 1 ==> own[|own| - n] == ReadMounts(w, r.mounts))
    && (n >= 2 ==> own[|own| - n + 1] == ReadMapper(w, r.mapperEntries, r.mapperTargets))
    && (n >= 3 ==> own[|own| - n + 2] == ReadDevices(w, r.blockEntries, r.blockTargets))
  }

  function Phase(refresher: Refresher): nat {
    match refresher
    case Idle => 0
    case HasMounts(_) => 1
    case HasMapper(_, _) => 2
    case Ready(_) => 3
  }

  predicate Tracks(s: System, w: nat, own: seq<Step>) {
    |s.refreshers| == |s.readings| && (w < |s.refreshers| ==> HasRead(own, w, Phase(s.refreshers[w]), s.readings[w]))
  }

  lemma StepTracks(dirs: Dirs, s: System, step: Step, w: nat, own: seq<Step>)
    requires Enabled(s, step) && Tracks(s, w, own)
    ensures Tracks(Apply(dirs, s, step), w, own + if step.who == w then [step] else [])
  {
    if step.who != w {
      assert own + [] == own;
    }
  }

  lemma {:induction false} RefresherTracks(dirs: Dirs, refreshers: nat, steps: seq<Step>, w: nat)
    requires ValidRun(dirs, Start(refreshers), steps)
    ensures Tracks(After(dirs, Start(refreshers), steps), w, Own(steps, w))
  {
    if steps != [] {
      LastStep(dirs, Start(refreshers), steps);
      RefresherTracks(dirs, refreshers, Front(steps), w);
      StepTracks(dirs, After(dirs, Start(refreshers), Front(steps)), Last(steps), w, Own(Front(steps), w));
    }
  }

  /** The readings behind the publications of a run: each is what its refresher read in its last three steps. */
  predicate Publications(steps: seq<Step>, published: seq<Reading>) {
    if steps == [] then published == []
    else if Last(steps).Publish? then
      && published != [] && HasRead(Own(Front(steps), Last(steps).who), Last(steps).who, 3, Last(published))
      && Publications(Front(steps), Front(published))
    else Publications(Front(steps), published)
  }

  lemma {:induction false} PublishedFromSteps(dirs: Dirs, refreshers: nat, steps: seq<Step>)
    requires ValidRun(dirs, Start(refreshers), steps)
    ensures Publications(steps, After(dirs, Start(refreshers), steps).published)
  {
    if steps != [] {
      LastStep(dirs, Start(refreshers), steps);
      PublishedFromSteps(dirs, refreshers, Front(steps));
      RefresherTracks(dirs, refreshers, Front(steps), Last(steps).who);
      PublishedStep(dirs, After(dirs, Start(refreshers), Front(steps)), steps);
    }
  }

  lemma PublishedStep(dirs: Dirs, s: System, steps: seq<Step>)
    requires steps != [] && Enabled(s, Last(steps)) && Publications(Front(steps), s.published)
    requires Tracks(s, Last(steps).who, Own(Front(steps), Last(steps).who))
    ensures Publications(steps, Apply(dirs, s, Last(steps)).published)
  {
    if Last(steps).Publish? {
      FrontOfAppend(s.published, s.readings[Last(steps).who]);
    }
  }

  /** Lookups, told from the steps: after any interleaving of refreshes every lookup answers as the linear scan
      of what the refresher that published last has read, and finds nothing before the first publication. */
  lemma LookupsScanLastRead(dirs: Dirs, refreshers: nat, steps: seq<Step>) returns (published: seq<Reading>)
    requires dirs.devMapper != "" && ValidRun(dirs, Start(refreshers), steps)
    ensures Publications(steps, published)
    ensures var index := After(dirs, Start(refreshers), steps).index;
      if published == [] then forall major: U64, minor: U64 ::
        index.Mountpoint(major, minor) == "" && index.DevicePath(major, minor) == ""
      else AnswersAs(dirs, index, Last(published)) && BuildIndex(dirs, Last(published)) == Some(index)
  {
    published := After(dirs, Start(refreshers), steps).published;
    PublishedFromSteps(dirs, refreshers, steps);
    LookupsScanLatestPublication(dirs, refreshers, steps);
    RunKeepsInv(dirs, Start(refreshers), steps);
  }

  /** The steps of one refresh. */
  function Refreshing(w: nat, r: Reading): seq<Step> {
    [ReadMounts(w, r.mounts), ReadMapper(w, r.mapperEntries, r.mapperTargets),
     ReadDevices(w, r.blockEntries, r.blockTargets), Publish(w)]
  }

  /** Whatever else is under way, an idle refresher whose reads all succeed publishes what it has read. */
  lemma IdleRefresherCanPublish(dirs: Dirs, refreshers: nat, steps: seq<Step>, w: nat, r: Reading)
    requires ValidRun(dirs, Start(refreshers), steps) && BuildIndex(dirs, r).Some?
    requires var s := After(dirs, Start(refreshers), steps); w < |s.refreshers| == |s.readings| && s.refreshers[w].Idle?
    ensures ValidRun(dirs, Start(refreshers), steps + Refreshing(w, r))
    ensures After(dirs, Start(refreshers), steps + Refreshing(w, r)).index == BuildIndex(dirs, r).value
  {
    var start, all := Start(refreshers), Refreshing(w, r);
    assert steps + all[..1] == steps + [all[0]];
    RunSnoc(dirs, start, steps, all[0]);
    assert steps + all[..2] == steps + all[..1] + [all[1]];
    RunSnoc(dirs, start, steps + all[..1], all[1]);
    assert steps + all[..3] == steps + all[..2] + [all[2]];
    RunSnoc(dirs, start, steps + all[..2], all[2]);
    assert steps + all == steps + all[..3] + [all[3]];
    RunSnoc(dirs, start, steps + all[..3], all[3]);
  }

  /** Every refresher becomes idle again: it publishes, or one of its reads fails. */
  lemma CanBecomeIdle(dirs: Dirs, refreshers: nat, steps: seq<Step>, w: nat) returns (more: seq<Step>)
    requires ValidRun(dirs, Start(refreshers), steps)
    requires var s := After(dirs, Start(refreshers), steps); w < |s.refreshers| == |s.readings|
    ensures ValidRun(dirs, Start(refreshers), steps + more)
    ensures var t := After(dirs, Start(refreshers), steps + more); w < |t.refreshers| && t.refreshers[w].Idle?
  {
    more := match After(dirs, Start(refreshers), steps).refreshers[w]
      case Idle => []
      case HasMounts(_) => [ReadMapper(w, None, map[])]
      case HasMapper(_, _) => [ReadDevices(w, None, map[])]
      case Ready(_) => [Publish(w)];
    if more == [] {
      assert steps + more == steps;
    } else {
      RunSnoc(dirs, Start(refreshers), steps, more[0]);
    }
  }
}

/**
  The `VPSManager` store: the host records found on disk, kept sorted by host name, and the
  three workflow launches, each prepared on a record and returned as a request.
 */
module Manager {

  import opened Wrappers
  import opened Values
  import opened Records
  import Files
  import opened Hosts
  import opened Requests

  /** How `find_vps` ends: normally, with `load` raising for one file, or with `sort` raising TypeError. */
  datatype ScanOutcome = Scanned | LoadFailed(index: nat) | Unsortable

  /** The host names of the records, in order. */
  function Hostnames(vs: seq<VPS>): (names: seq<Value>)
    reads vs
    ensures |names| == |vs|
    ensures forall i :: 0 <= i < |vs| ==> names[i] == vs[i].hostname
  {
    if vs == [] then [] else Hostnames(vs[..|vs| - 1]) + [vs[|vs| - 1].hostname]
  }

  /** The records are in ascending order of host name. */
  ghost predicate SortedByHostname(vs: seq<VPS>)
    reads vs
  {
    forall a, b :: 0 <= a < b < |vs| ==> KeyLe(vs[a].hostname, vs[b].hostname)
  }

  /**
    Sorting by these keys does not raise: fewer than two keys are never compared; otherwise all
    are str or all are numbers.
   */
  predicate Sortable(keys: seq<Value>) {
    |keys| < 2 || forall i :: 0 <= i < |keys| ==> KindOf(keys[i]) == KindOf(keys[0]) != NoneKind
  }

  /** Sortable exactly when every two keys can be compared with `<=`. */
  lemma SortableIffComparable(keys: seq<Value>)
    ensures Sortable(keys) <==>
      |keys| < 2 || forall i, j :: 0 <= i < |keys| && 0 <= j < |keys| ==> KeyLe(keys[i], keys[j]) || KeyLe(keys[j], keys[i])
  {
    if Sortable(keys) && |keys| >= 2 {
      forall i, j | 0 <= i < |keys| && 0 <= j < |keys|
        ensures KeyLe(keys[i], keys[j]) || KeyLe(keys[j], keys[i])
      {
        KeyLeTotal(keys[i], keys[j]);
      }
    }
    if |keys| >= 2 && forall i, j :: 0 <= i < |keys| && 0 <= j < |keys| ==> KeyLe(keys[i], keys[j]) || KeyLe(keys[j], keys[i]) {
      forall i | 0 <= i < |keys|
        ensures KindOf(keys[i]) == KindOf(keys[0]) != NoneKind
      {
        if KeyLe(keys[i], keys[0]) {
          KeyLeNeedsOneKind(keys[i], keys[0]);
        } else {
          KeyLeNeedsOneKind(keys[0], keys[i]);
        }
      }
    }
  }

  /** Inserting a record just before the first larger one keeps a sorted list sorted. */
  lemma InsertKeepsSorted(vs: seq<VPS>, v: VPS, i: nat, kind: Kind)
    requires kind != NoneKind && KindOf(v.hostname) == kind
    requires forall a :: 0 <= a < |vs| ==> KindOf(vs[a].hostname) == kind
    requires i <= |vs| && SortedByHostname(vs)
    requires forall a :: 0 <= a < i ==> KeyLe(vs[a].hostname, v.hostname)
    requires i < |vs| ==> !KeyLe(vs[i].hostname, v.hostname)
    ensures SortedByHostname(vs[..i] + [v] + vs[i..])
  {
    var ws := vs[..i] + [v] + vs[i..];
    if i < |vs| {
      KeyLeTotal(vs[i].hostname, v.hostname);
    }
    forall a, b | 0 <= a < b < |ws|
      ensures KeyLe(ws[a].hostname, ws[b].hostname)
    {
      if b == i {
        assert ws[a] == vs[a];
      } else if a == i {
        assert ws[b] == vs[b - 1];
        if b - 1 > i {
          KeyLeTransitive(v.hostname, vs[i].hostname, vs[b - 1].hostname);
        }
      } else {
        var a' := if a < i then a else a - 1;
        var b' := if b < i then b else b - 1;
        assert ws[a] == vs[a'] && ws[b] == vs[b'];
      }
    }
  }

  /** Inserting the next record of `vs` into the sorted prefix keeps the same records. */
  lemma InsertKeepsMultiset(sorted: seq<VPS>, v: VPS, i: nat, vs: seq<VPS>, k: nat)
    requires i <= |sorted| && k < |vs| && vs[k] == v
    requires multiset(sorted) == multiset(vs[..k])
    ensures multiset(sorted[..i] + [v] + sorted[i..]) == multiset(vs[..k + 1])
  {
    assert sorted == sorted[..i] + sorted[i..];
    assert vs[..k + 1] == vs[..k] + [v];
  }

  class VPSManager {
    /** The application directory (the working directory when the program started). */
    const pbgdir: string

    var vpss: seq<VPS>
    var path: string

    /** The fields `__init__` sets before it calls `find_vps`. */
    constructor(pbgdir: string)
      ensures this.pbgdir == pbgdir && vpss == [] && path == HostsRoot(pbgdir)
    {
      this.pbgdir := pbgdir;
      vpss := [];
      path := HostsRoot(pbgdir);
    }

    /** `list`: the host names of the records, in the order of the store. */
    function List(): (names: seq<Value>)
      reads this, vpss
      ensures |names| == |vpss|
      ensures forall i :: 0 <= i < |vpss| ==> names[i] == vpss[i].hostname
    {
      Hostnames(vpss)
    }

    /** `find_vps_by_hostname`: the first record whose host name equals `name`, or None. */
    method FindVpsByHostname(name: Value) returns (found: VPS?)
      ensures found == null <==> forall i :: 0 <= i < |vpss| ==> !PyEq(vpss[i].hostname, name)
      ensures found != null ==> exists i :: 0 <= i < |vpss| && vpss[i] == found && PyEq(found.hostname, name) &&
                                     (forall j :: 0 <= j < i ==> !PyEq(vpss[j].hostname, name))
    {
      var i := 0;
      while i < |vpss|
        invariant 0 <= i <= |vpss|
        invariant forall j :: 0 <= j < i ==> !PyEq(vpss[j].hostname, name)
      {
        if PyEq(vpss[i].hostname, name) {
          return vpss[i];
        }
        i := i + 1;
      }
      return null;
    }

    /** The list's in-place `sort` by host name, when no comparison raises. */
    method SortByHostname()
      requires Sortable(Hostnames(vpss))
      modifies this
      ensures multiset(vpss) == multiset(old(vpss))
      ensures SortedByHostname(vpss)
    {
      var vs := vpss;
      if |vs| < 2 {
        return;
      }
      ghost var kind := KindOf(vs[0].hostname);
      assert forall a :: 0 <= a < |vs| ==> KindOf(vs[a].hostname) == kind by {
        assert forall a :: 0 <= a < |vs| ==> Hostnames(vs)[a] == vs[a].hostname;
      }
      var sorted: seq<VPS> := [];
      var k := 0;
      while k < |vs|
        invariant 0 <= k <= |vs|
        invariant multiset(sorted) == multiset(vs[..k])
        invariant forall a :: 0 <= a < |sorted| ==> KindOf(sorted[a].hostname) == kind
        invariant SortedByHostname(sorted)
      {
        var v := vs[k];
        var i := 0;
        while i < |sorted| && KeyLe(sorted[i].hostname, v.hostname)
          invariant 0 <= i <= |sorted|
          invariant forall a :: 0 <= a < i ==> KeyLe(sorted[a].hostname, v.hostname)
        {
          i := i + 1;
        }
        InsertKeepsSorted(sorted, v, i, kind);
        InsertKeepsMultiset(sorted, v, i, vs, k);
        sorted := sorted[..i] + [v] + sorted[i..];
        k := k + 1;
      }
      assert vs[..k] == vs;
      vpss := sorted;
    }

    /**
      `find_vps`: one new record per host file found, its `path` set to the file and then
      loaded, appended in the order found; then the whole store is sorted by host name.
     */
    method FindVps(user: string, fs: Files.Fs, found: seq<string>) returns (outcome: ScanOutcome, ghost loaded: seq<VPS>)
      modifies this
      ensures |loaded| <= |found|
      ensures forall k :: 0 <= k < |loaded| ==> fresh(loaded[k]) && Loaded(loaded[k], user, fs, found[k])
      ensures outcome.LoadFailed? <==> exists k :: 0 <= k < |found| && found[k] !in fs.docs
      ensures outcome.LoadFailed? ==>
        && outcome.index == |loaded| < |found| && found[|loaded|] !in fs.docs
        && vpss == old(vpss) + loaded
      ensures !outcome.LoadFailed? ==> |loaded| == |found|
      ensures outcome.Unsortable? <==> !outcome.LoadFailed? && !Sortable(Hostnames(old(vpss) + loaded))
      ensures outcome.Unsortable? ==> vpss == old(vpss) + loaded
      ensures outcome.Scanned? ==> multiset(vpss) == multiset(old(vpss) + loaded) && SortedByHostname(vpss)
    {
      var failed;
      failed, loaded := LoadAll(user, fs, found);
      if failed.Some? {
        return LoadFailed(failed.value), loaded;
      }
      if !Sortable(Hostnames(vpss)) {
        return Unsortable, loaded;
      }
      SortByHostname();
      outcome := Scanned;
    }

    /** The loop of `find_vps`: loads the files in order and appends their records, up to the first that fails. */
    method LoadAll(user: string, fs: Files.Fs, found: seq<string>) returns (failed: Option<nat>, ghost loaded: seq<VPS>)
      modifies this
      ensures vpss == old(vpss) + loaded && |loaded| <= |found|
      ensures forall k :: 0 <= k < |loaded| ==> fresh(loaded[k]) && Loaded(loaded[k], user, fs, found[k])
      ensures failed.Some? <==> exists k :: 0 <= k < |found| && found[k] !in fs.docs
      ensures failed.Some? ==> failed.value == |loaded| < |found| && found[|loaded|] !in fs.docs
      ensures failed.None? ==> |loaded| == |found|
    {
      loaded := [];
      var i := 0;
      while i < |found|
        invariant 0 <= i <= |found| && |loaded| == i
        invariant vpss == old(vpss) + loaded
        invariant forall k :: 0 <= k < i ==> found[k] in fs.docs
        invariant forall k :: 0 <= k < i ==> fresh(loaded[k]) && Loaded(loaded[k], user, fs, found[k])
      {
        var v, ok := LoadHost(user, fs, found[i]);
        if !ok {
          assert found[i] !in fs.docs;
          return Some(i), loaded;
        }
        vpss := vpss + [v];
        loaded := loaded + [v];
        i := i + 1;
      }
      failed := None;
    }

    /** What a record found at `file` holds: the defaults with that path, overlaid with the file. */
    ghost predicate Loaded(v: VPS, user: string, fs: Files.Fs, file: string)
      reads v
    {
      && v.pbgdir == pbgdir
      && file in fs.docs
      && v.State() == LoadInto(Defaults(user).(path := Some(file)), fs.docs[file])
    }

    /** One step of `find_vps`: a new record, its `path` set to the file, then `load`. */
    method LoadHost(user: string, fs: Files.Fs, file: string) returns (v: VPS, ok: bool)
      ensures fresh(v)
      ensures ok <==> file in fs.docs
      ensures ok ==> Loaded(v, user, fs, file)
    {
      v := new VPS(pbgdir, user);
      v.path := Some(file);
      ok := v.Load(fs);
    }

    /** `add_vps`: a new record with the defaults; it is not added to the store. */
    method AddVps(user: string) returns (v: VPS)
      ensures fresh(v) && v.pbgdir == pbgdir && v.State() == Defaults(user)
    {
      v := new VPS(pbgdir, user);
    }

    /**
      `init_vps`: clears the setup status, saves, deletes the init log file, empties the init
      log, and returns the launch of the init playbook.
     */
    method InitVps(vps: VPS, debug: bool, fs: Files.Fs) returns (req: LaunchRequest, fs': Files.Fs)
      modifies vps
      ensures vps.State() == InitReset(old(vps.State()), vps.pbgdir)
      ensures fs' == SaveFs(fs, old(vps.State()).(setupStatus := Null), vps.pbgdir)
                       .Unlink(PathText(vps.path) + "/" + LogFileName(Init))
      ensures req == InitRequest(vps.State(), debug, pbgdir)
    {
      vps.SetStatus(Setup, Null);
      fs' := vps.Save(fs);
      fs' := vps.RemoveLog(Init, fs');
      vps.ClearLog(Init);
      req := InitRequest(vps.State(), debug, pbgdir);
    }

    /**
      `setup_vps`: saves, deletes the setup log file, empties the setup log, and returns the
      launch of the setup playbook (or the error of splitting the SSH addresses).
     */
    method SetupVps(vps: VPS, debug: bool, fs: Files.Fs) returns (req: Result<LaunchRequest, PrepareError>, fs': Files.Fs)
      modifies vps
      ensures vps.State() == SetupReset(old(vps.State()), vps.pbgdir)
      ensures fs' == SaveFs(fs, old(vps.State()), vps.pbgdir).Unlink(PathText(vps.path) + "/" + LogFileName(Setup))
      ensures req == SetupRequest(vps.State(), debug, pbgdir)
    {
      fs' := vps.Save(fs);
      fs' := vps.RemoveLog(Setup, fs');
      vps.ClearLog(Setup);
      req := SetupRequest(vps.State(), debug, pbgdir);
    }

    /**
      `update_vps`: clears the update status, saves, deletes the update log file, empties the
      update log, and returns the launch of the playbook the record's command names.
     */
    method UpdateVps(vps: VPS, debug: bool, fs: Files.Fs) returns (req: Result<LaunchRequest, PrepareError>, fs': Files.Fs)
      modifies vps
      ensures vps.State() == UpdateReset(old(vps.State()), vps.pbgdir)
      ensures fs' == SaveFs(fs, old(vps.State()).(updateStatus := Null), vps.pbgdir)
                       .Unlink(PathText(vps.path) + "/" + LogFileName(Update))
      ensures req == UpdateRequest(vps.State(), debug, pbgdir)
    {
      vps.SetStatus(Update, Null);
      fs' := vps.Save(fs);
      fs' := vps.RemoveLog(Update, fs');
      vps.ClearLog(Update);
      req := UpdateRequest(vps.State(), debug, pbgdir);
    }
  }

  /** `VPSManager()`: an empty store, then `find_vps`. */
  method Open(pbgdir: string, user: string, fs: Files.Fs, found: seq<string>)
    returns (m: VPSManager, outcome: ScanOutcome, ghost loaded: seq<VPS>)
    ensures fresh(m) && m.pbgdir == pbgdir && |loaded| <= |found|
    ensures forall k :: 0 <= k < |loaded| ==> fresh(loaded[k]) && m.Loaded(loaded[k], user, fs, found[k])
    ensures outcome.LoadFailed? <==> exists k :: 0 <= k < |found| && found[k] !in fs.docs
    ensures !outcome.LoadFailed? ==> |loaded| == |found|
    ensures outcome.Scanned? ==> multiset(m.vpss) == multiset(loaded) && SortedByHostname(m.vpss)
    ensures outcome.Unsortable? ==> m.vpss == loaded && !Sortable(Hostnames(loaded))
  {
    m := new VPSManager(pbgdir);
    outcome, loaded := m.FindVps(user, fs, found);
  }
}

/** The dashboard registry: `DashboardsWatcher` keeps a map from dashboard
    name (the file's stem) to the loaded file, filled by an initial scan of
    the watched directories and kept current by filesystem events.

    Executing a dashboard file is an oracle `exec`: for a path it gives the
    namespace its top-level code produced, or the exception it raised. */
module Watcher {
  import opened Common
  import opened PathNames

  datatype ExecOutcome = Executed(namespace: nat) | Raised(error: string)

  /** An imported dashboard module: its qualified name and its namespace. */
  datatype Module = Module(name: string, namespace: nat)

  /** The value stored per dashboard: `{'path': ..., 'module': ...}`. */
  datatype Record = Record(path: FsPath, pyModule: Module)

  predicate StartsWithUnderscore(s: string)
  {
    |s| > 0 && s[0] == '_'
  }

  /** Python files are dashboards, except those whose stem starts with `_`
      (package markers and shared helpers). */
  predicate IsDashboard(p: FsPath)
  {
    p.isFile && Suffix(p.name) == ".py" && !StartsWithUnderscore(Stem(p.name))
  }

  /** The dashboard test in terms of the file name alone; a dashboard's
      stem is never empty, so the stem a successful load returns is truthy. */
  lemma IsDashboardByName(p: FsPath)
    ensures IsDashboard(p) <==>
      p.isFile && |p.name| > 3 && p.name[|p.name| - 3..] == ".py" && p.name[0] != '_'
    ensures IsDashboard(p) ==> Stem(p.name) + ".py" == p.name && |Stem(p.name)| > 0
  {
    PySuffix(p.name);
  }

  /** `import_module`: the module is named `dashboard.<stem>`; an exception
      while executing the file is passed on. */
  function ImportModule(p: FsPath, exec: FsPath -> ExecOutcome): (r: Result<Module, string>)
    ensures r.Ok? <==> exec(p).Executed?
    ensures r.Ok? ==> r.value == Module("dashboard." + Stem(p.name), exec(p).namespace)
    ensures r.Err? ==> r.error == exec(p).error
  {
    match exec(p)
    case Executed(ns) => Ok(Module("dashboard." + Stem(p.name), ns))
    case Raised(e) => Err(e)
  }

  /** `load_dashboard(p)` succeeds. */
  predicate Loads(p: FsPath, exec: FsPath -> ExecOutcome)
  {
    IsDashboard(p) && exec(p).Executed?
  }

  /** The registry after `load_dashboard(p)`. */
  function AfterLoad(m: map<string, Record>, p: FsPath, exec: FsPath -> ExecOutcome): (r: map<string, Record>)
    ensures !Loads(p, exec) ==> r == m
    ensures Loads(p, exec) ==>
      && r.Keys == m.Keys + {Stem(p.name)}
      && r[Stem(p.name)] == Record(p, Module("dashboard." + Stem(p.name), exec(p).namespace))
    ensures forall k :: k in m && k != Stem(p.name) ==> k in r && r[k] == m[k]
  {
    if !IsDashboard(p) then m
    else
      match ImportModule(p, exec)
      case Err(_) => m
      case Ok(loaded) => m[Stem(p.name) := Record(p, loaded)]
  }

  /** The registry after loading each of `ps` in turn (the initial scan). */
  function ScanInto(m: map<string, Record>, ps: seq<FsPath>, exec: FsPath -> ExecOutcome): map<string, Record>
  {
    if |ps| == 0 then m
    else AfterLoad(ScanInto(m, ps[..|ps| - 1], exec), ps[|ps| - 1], exec)
  }

  /** Loading `p` succeeds and files it under `k`. */
  predicate LoadsAs(p: FsPath, exec: FsPath -> ExecOutcome, k: string)
  {
    Loads(p, exec) && Stem(p.name) == k
  }

  /** `ps[i]` is the last path of the scan that loads as dashboard `k`. */
  predicate LastLoadOf(ps: seq<FsPath>, exec: FsPath -> ExecOutcome, k: string, i: int)
  {
    && 0 <= i < |ps|
    && LoadsAs(ps[i], exec, k)
    && forall j :: i < j < |ps| ==> !LoadsAs(ps[j], exec, k)
  }

  /** After the initial scan, `k` is a dashboard exactly when some scanned
      file loads under that stem. */
  lemma {:induction false} ScanKeys(ps: seq<FsPath>, exec: FsPath -> ExecOutcome, k: string)
    ensures k in ScanInto(map[], ps, exec) <==> exists i :: 0 <= i < |ps| && LoadsAs(ps[i], exec, k)
  {
    if |ps| > 0 {
      var init := ps[..|ps| - 1];
      ScanKeys(init, exec, k);
      if exists i :: 0 <= i < |ps| && LoadsAs(ps[i], exec, k) {
        var i :| 0 <= i < |ps| && LoadsAs(ps[i], exec, k);
        if i < |ps| - 1 {
          assert init[i] == ps[i];
        }
      }
      if exists i :: 0 <= i < |init| && LoadsAs(init[i], exec, k) {
        var i :| 0 <= i < |init| && LoadsAs(init[i], exec, k);
        assert ps[i] == init[i];
      }
    }
  }

  /** The entry the initial scan leaves under `k` is the last scanned file
      that loads under that stem: later directories and later entries win. */
  lemma {:induction false} ScanLastWins(ps: seq<FsPath>, exec: FsPath -> ExecOutcome, k: string)
    requires k in ScanInto(map[], ps, exec)
    ensures exists i :: LastLoadOf(ps, exec, k, i) && ScanInto(map[], ps, exec)[k].path == ps[i]
  {
    var init := ps[..|ps| - 1];
    var last := ps[|ps| - 1];
    var s0 := ScanInto(map[], init, exec);
    var s := ScanInto(map[], ps, exec);
    assert s == AfterLoad(s0, last, exec);
    if LoadsAs(last, exec, k) {
      assert LastLoadOf(ps, exec, k, |ps| - 1);
    } else {
      assert k in s0 && s[k] == s0[k];
      ScanLastWins(init, exec, k);
      var i :| LastLoadOf(init, exec, k, i) && s0[k].path == init[i];
      assert ps[i] == init[i];
      assert LastLoadOf(ps, exec, k, i);
    }
  }

  /** Deleting by the event's file name, as `process_IN_DELETE` does, never
      removes the dashboard loaded from that same file: the key is the stem,
      the file name still carries `.py`. */
  lemma AsWrittenDeleteKeepsDashboard(m: map<string, Record>, p: FsPath, exec: FsPath -> ExecOutcome)
    requires Loads(p, exec)
    ensures Stem(p.name) in AfterLoad(m, p, exec) - {p.name}
  {
    IsDashboardByName(p);
    assert Stem(p.name) != p.name by {
      assert |Stem(p.name)| + 3 == |p.name|;
    }
  }

  /** Deleting by the stem undoes a create of a new dashboard. */
  lemma {:induction false} DeleteByStemUndoesCreate(m: map<string, Record>, p: FsPath, exec: FsPath -> ExecOutcome)
    requires Stem(p.name) !in m
    ensures AfterLoad(m, p, exec) - {Stem(p.name)} == m
  {
    var r := AfterLoad(m, p, exec) - {Stem(p.name)};
    assert r.Keys == m.Keys;
  }

  /** The registry after `process_IN_MOVED_TO`. `src` is the source path
      pyinotify paired the move with, `None` for a file moved in from outside
      the watched directories: the event then has no `src_pathname`, and
      reading it raises `AttributeError` before anything is removed or loaded. */
  function AfterMovedTo(m: map<string, Record>, src: Option<FsPath>, dst: FsPath, exec: FsPath -> ExecOutcome): map<string, Record>
  {
    match src
    case None => m
    case Some(s) => AfterLoad(m - {Stem(s.name)}, dst, exec)
  }

  /** A paired move drops the source's entry and files the destination under
      its stem when it loads; when it does not, only the source's entry goes
      and an earlier entry under the destination's stem stays. */
  lemma MovedToReplaces(m: map<string, Record>, src: FsPath, dst: FsPath, exec: FsPath -> ExecOutcome)
    ensures var r := AfterMovedTo(m, Some(src), dst, exec);
      && r.Keys <= (m.Keys - {Stem(src.name)}) + {Stem(dst.name)}
      && (Loads(dst, exec) ==> Stem(dst.name) in r && r[Stem(dst.name)].path == dst)
      && (!Loads(dst, exec) ==> r == m - {Stem(src.name)})
      && forall k :: k in m && k != Stem(src.name) && k != Stem(dst.name) ==> k in r && r[k] == m[k]
  {
  }

  /** A dashboard moved in from outside the watched directories is not
      loaded by the handler as written. */
  lemma AsWrittenUnpairedMoveIgnored(m: map<string, Record>, dst: FsPath, exec: FsPath -> ExecOutcome)
    requires Loads(dst, exec) && Stem(dst.name) !in m
    ensures Stem(dst.name) !in AfterMovedTo(m, None, dst, exec)
  {
  }

  /** The move handler as intended: an unpaired move-in is handled as a create. */
  function AfterMovedToIntended(m: map<string, Record>, src: Option<FsPath>, dst: FsPath, exec: FsPath -> ExecOutcome): map<string, Record>
  {
    match src
    case None => AfterLoad(m, dst, exec)
    case Some(s) => AfterLoad(m - {Stem(s.name)}, dst, exec)
  }

  /** With the intended handler, a dashboard that arrives by any move is
      loaded and filed under its stem; a paired move behaves as written. */
  lemma MovedInIsLoaded(m: map<string, Record>, src: Option<FsPath>, dst: FsPath, exec: FsPath -> ExecOutcome)
    ensures Loads(dst, exec) ==>
      var r := AfterMovedToIntended(m, src, dst, exec);
      Stem(dst.name) in r && r[Stem(dst.name)] == Record(dst, Module("dashboard." + Stem(dst.name), exec(dst).namespace))
    ensures src.Some? ==> AfterMovedToIntended(m, src, dst, exec) == AfterMovedTo(m, src, dst, exec)
  {
  }

  /** Scanning one list after another is scanning their concatenation. */
  lemma {:induction false} ScanIntoAppend(m: map<string, Record>, a: seq<FsPath>, b: seq<FsPath>, exec: FsPath -> ExecOutcome)
    ensures ScanInto(ScanInto(m, a, exec), b, exec) == ScanInto(m, a + b, exec)
  {
    if |b| == 0 {
      assert a + b == a;
    } else {
      assert (a + b)[..|a + b| - 1] == a + b[..|b| - 1];
      ScanIntoAppend(m, a, b[..|b| - 1], exec);
    }
  }

  class DashboardsWatcher {
    var dashboards: map<string, Record>

    /** Scans the listing of every watched directory, in order, loading each
        entry. `listings[r]` is `paths[r].iterdir()`. */
    constructor (listings: seq<seq<FsPath>>, exec: FsPath -> ExecOutcome)
      ensures dashboards == ScanInto(map[], Flatten(listings), exec)
    {
      dashboards := map[];
      new;
      var r := 0;
      while r < |listings|
        invariant 0 <= r <= |listings|
        invariant dashboards == ScanInto(map[], Flatten(listings[..r]), exec)
      {
        ScanDirectory(listings[r], exec);
        ScanIntoAppend(map[], Flatten(listings[..r]), listings[r], exec);
        assert listings[..r + 1][..r] == listings[..r];
        r := r + 1;
      }
      assert listings[..r] == listings;
    }

    /** One directory of the initial scan: `load_dashboard` on each entry. */
    method ScanDirectory(listing: seq<FsPath>, exec: FsPath -> ExecOutcome)
      modifies this
      ensures dashboards == ScanInto(old(dashboards), listing, exec)
    {
      var k := 0;
      while k < |listing|
        invariant 0 <= k <= |listing|
        invariant dashboards == ScanInto(old(dashboards), listing[..k], exec)
      {
        var _ := LoadDashboard(listing[k], exec);
        assert listing[..k + 1][..k] == listing[..k];
        k := k + 1;
      }
      assert listing[..k] == listing;
    }

    /** `get_dashboard_names`: the registry's names, ascending, each once. */
    method GetDashboardNames() returns (names: seq<string>)
      ensures StrictlySorted(names)
      ensures forall k :: k in names <==> k in dashboards
    {
      names := [];
      var rest := dashboards.Keys;
      while rest != {}
        invariant rest <= dashboards.Keys
        invariant StrictlySorted(names)
        invariant forall k :: k in names <==> k in dashboards && k !in rest
        decreases |rest|
      {
        var k :| k in rest;
        names := InsertSorted(names, k);
        rest := rest - {k};
      }
    }

    /** `load_dashboard`: `None` stands for Python's `False`. */
    method LoadDashboard(p: FsPath, exec: FsPath -> ExecOutcome) returns (r: Option<string>)
      modifies this
      ensures dashboards == AfterLoad(old(dashboards), p, exec)
      ensures r == if Loads(p, exec) then Some(Stem(p.name)) else None
    {
      if !IsDashboard(p) {
        return None;
      }
      var imported := ImportModule(p, exec);
      if imported.Err? {
        // the exception is logged and the registry left as it was
        return None;
      }
      dashboards := dashboards[Stem(p.name) := Record(p, imported.value)];
      r := Some(Stem(p.name));
    }

    /** `process_IN_CREATE`: a new file is loaded; its name is returned. */
    method ProcessCreate(p: FsPath, exec: FsPath -> ExecOutcome) returns (r: Option<string>)
      modifies this
      ensures dashboards == AfterLoad(old(dashboards), p, exec)
      ensures r == if Loads(p, exec) then Some(Stem(p.name)) else None
    {
      var loaded := LoadDashboard(p, exec);
      IsDashboardByName(p);
      if loaded.Some? && loaded.value != "" {
        r := loaded;
      } else {
        r := None;
      }
    }

    /** `process_IN_CLOSE_WRITE`: a rewritten file is reloaded; an import
        that fails keeps the previous version. */
    method ProcessCloseWrite(p: FsPath, exec: FsPath -> ExecOutcome) returns (r: Option<string>)
      modifies this
      ensures dashboards == AfterLoad(old(dashboards), p, exec)
      ensures r == if Loads(p, exec) then Some(Stem(p.name)) else None
    {
      var reloaded := LoadDashboard(p, exec);
      IsDashboardByName(p);
      if reloaded.Some? && reloaded.value != "" {
        r := reloaded;
      } else {
        r := None;
      }
    }

    /** Removes the entry under `name`, if any, and returns that name. */
    method RemoveEntry(name: string) returns (r: Option<string>)
      modifies this
      ensures dashboards == old(dashboards) - {name}
      ensures r == if name in old(dashboards) then Some(name) else None
    {
      if name in dashboards {
        dashboards := dashboards - {name};
        return Some(name);
      }
      return None;
    }

    /** `process_IN_DELETE` as written: the key removed is the event's
        `name`, the deleted file's name with its `.py`. */
    method ProcessDelete(p: FsPath) returns (r: Option<string>)
      modifies this
      ensures dashboards == old(dashboards) - {p.name}
      ensures r == if p.name in old(dashboards) then Some(p.name) else None
    {
      r := RemoveEntry(p.name);
    }

    /** `process_IN_DELETE` as intended: the key removed is the deleted
        file's stem, the key its load used. */
    method ProcessDeleteIntended(p: FsPath) returns (r: Option<string>)
      modifies this
      ensures dashboards == old(dashboards) - {Stem(p.name)}
      ensures r == if Stem(p.name) in old(dashboards) then Some(Stem(p.name)) else None
    {
      r := RemoveEntry(Stem(p.name));
    }

    /** `process_IN_MOVED_TO`: the entry under the old file's stem is removed,
        then the new path is handled as a create. Without a paired source
        the handler raises first and nothing changes. */
    method ProcessMovedTo(src: Option<FsPath>, dst: FsPath, exec: FsPath -> ExecOutcome)
      modifies this
      ensures dashboards == AfterMovedTo(old(dashboards), src, dst, exec)
    {
      if src.None? {
        // reading the missing `src_pathname` raises before either handler runs
        return;
      }
      var _ := RemoveEntry(Stem(src.value.name));
      var _ := ProcessCreate(dst, exec);
    }

    /** `process_IN_MOVED_TO` as intended: a move-in without a paired source
        is handled as a create. */
    method ProcessMovedToIntended(src: Option<FsPath>, dst: FsPath, exec: FsPath -> ExecOutcome)
      modifies this
      ensures dashboards == AfterMovedToIntended(old(dashboards), src, dst, exec)
    {
      if src.Some? {
        var _ := RemoveEntry(Stem(src.value.name));
      }
      var _ := ProcessCreate(dst, exec);
    }
  }
}

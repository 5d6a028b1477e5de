/** What discovery.py promises about the functional definitions of Discovery:
    vars-file resolution, the entry filter, the fatal empty task, descriptor
    assembly and validation, the `-e` flags, and the additive merge. */
module DiscoveryFacts {
  import opened Dicts
  import opened Yaml
  import opened Settings
  import opened Discovery
  import Text

  // ---------------------------------------------------------------------------
  // Vars-file paths (discovery.py:74-78)
  // ---------------------------------------------------------------------------

  /** A relative vars file is looked up in the playbook's directory, an
      absolute one where it says, and a playbook path without a directory
      leaves the relative path as it is. */
  lemma VarsFilePathResolves(dir: string, base: string, rel: string)
    requires '/' !in base
    ensures Text.StartsWith(rel, "/") ==> VarsFilePath(dir + "/" + base, rel) == rel
    ensures !Text.StartsWith(rel, "/") ==> VarsFilePath(dir + "/" + base, rel) == dir + "/" + rel
    ensures !Text.StartsWith(rel, "/") ==> VarsFilePath(base, rel) == rel
  {
    Text.SplitWithoutSep(base, '/');
    Text.JoinSplit(rel, '/');
    if !Text.StartsWith(rel, "/") {
      var p := dir + "/" + base;
      assert p == dir + ['/'] + base;
      Text.SplitConcat(dir, base, '/');
      var parts := Text.Split(p, '/');
      assert parts[..|parts| - 1] == Text.Split(dir, '/');
      Text.JoinConcat(Text.Split(dir, '/'), Text.Split(rel, '/'), '/');
      Text.JoinSplit(dir, '/');
      assert dir + ['/'] + rel == dir + "/" + rel;
      assert Text.Split(base, '/')[..0] + Text.Split(rel, '/') == Text.Split(rel, '/');
    }
  }

  // ---------------------------------------------------------------------------
  // The entry filter (discovery.py:65-71)
  // ---------------------------------------------------------------------------

  /** The entries the filter lets through, in order. */
  function Unskipped(items: seq<Value>): seq<Value>
    decreases |items|
  {
    if |items| == 0 then []
    else (if Skipped(items[0]) then [] else [items[0]]) + Unskipped(items[1..])
  }

  /** Skipped entries contribute nothing: folding a document's entries gives
      the same aggregate, or the same halt, as folding only the entries the
      filter lets through. */
  lemma {:induction false} SkippedEntriesInert(cfg: Config, fs: FileSystem, playbook: string, agg: Aggregate,
                                               items: seq<Value>)
    ensures EntriesMerged(cfg, fs, playbook, agg, items) == EntriesMerged(cfg, fs, playbook, agg, Unskipped(items))
    decreases |items|
  {
    if |items| > 0 {
      var u := Unskipped(items);
      if Skipped(items[0]) {
        SkippedEntriesInert(cfg, fs, playbook, agg, items[1..]);
        assert u == Unskipped(items[1..]);
      } else {
        assert u[0] == items[0] && u[1..] == Unskipped(items[1..]);
        var one := EntryMerged(cfg, fs, playbook, agg, items[0]);
        if one.Ok? {
          SkippedEntriesInert(cfg, fs, playbook, one.value, items[1..]);
        }
      }
    }
  }

  // ---------------------------------------------------------------------------
  // A task without data is fatal (discovery.py:118-131)
  // ---------------------------------------------------------------------------

  lemma {:induction false} CapturedKeeps(vars: Dict<Value>, tasks: seq<string>, acc: seq<(string, Value)>,
                                         x: (string, Value))
    requires x in acc
    ensures x in Captured(vars, tasks, acc)
    decreases |tasks|
  {
    if |tasks| > 0 {
      CapturedKeeps(vars, tasks[1..], if Has(vars, tasks[0]) then acc + [(tasks[0], Get(vars, tasks[0]))] else acc, x);
    }
  }

  /** Every configured task the vars hold is captured with its metadata. */
  lemma {:induction false} CapturedHas(vars: Dict<Value>, tasks: seq<string>, acc: seq<(string, Value)>, t: string)
    requires t in tasks && Has(vars, t)
    ensures (t, Get(vars, t)) in Captured(vars, tasks, acc)
    decreases |tasks|
  {
    var acc1 := if Has(vars, tasks[0]) then acc + [(tasks[0], Get(vars, tasks[0]))] else acc;
    if tasks[0] == t {
      assert (t, Get(vars, t)) in acc1;
      CapturedKeeps(vars, tasks[1..], acc1, (t, Get(vars, t)));
    } else {
      CapturedHas(vars, tasks[1..], acc1, t);
    }
  }

  /** The first captured task comes first in configuration order. */
  lemma {:induction false} CapturedFirst(vars: Dict<Value>, tasks: seq<string>, k: int)
    requires 0 <= k < |tasks| && Has(vars, tasks[k])
    requires forall j :: 0 <= j < k ==> !Has(vars, tasks[j])
    ensures var c := Captured(vars, tasks, []); |c| > 0 && c[0] == (tasks[k], Get(vars, tasks[k]))
    decreases k
  {
    if k == 0 {
      var x := (tasks[0], Get(vars, tasks[0]));
      assert [] + [x] == [x];
      assert Captured(vars, tasks, []) == Captured(vars, tasks[1..], [x]);
      CapturedPrefix(vars, tasks[1..], [x]);
      assert Captured(vars, tasks, [])[..1] == [x];
    } else {
      assert forall j :: 0 <= j < k - 1 ==> !Has(vars, tasks[1..][j]) by {
        forall j | 0 <= j < k - 1 ensures !Has(vars, tasks[1..][j]) {
          assert tasks[1..][j] == tasks[j + 1];
        }
      }
      CapturedFirst(vars, tasks[1..], k - 1);
    }
  }

  lemma {:induction false} CapturedPrefix(vars: Dict<Value>, tasks: seq<string>, acc: seq<(string, Value)>)
    ensures var c := Captured(vars, tasks, acc); |acc| <= |c| && c[..|acc|] == acc
    decreases |tasks|
  {
    if |tasks| > 0 {
      var acc1 := if Has(vars, tasks[0]) then acc + [(tasks[0], Get(vars, tasks[0]))] else acc;
      CapturedPrefix(vars, tasks[1..], acc1);
      assert acc1[..|acc|] == acc;
    }
  }

  /** The configured tasks that `vars` holds, in configuration order. */
  function Present(vars: Dict<Value>, tasks: seq<string>): seq<string>
    decreases |tasks|
  {
    if |tasks| == 0 then []
    else (if Has(vars, tasks[0]) then [tasks[0]] else []) + Present(vars, tasks[1..])
  }

  /** A task is present iff it is configured and `vars` holds it. */
  lemma {:induction false} PresentIff(vars: Dict<Value>, tasks: seq<string>, t: string)
    ensures t in Present(vars, tasks) <==> t in tasks && Has(vars, t)
    decreases |tasks|
  {
    if |tasks| > 0 {
      PresentIff(vars, tasks[1..], t);
      assert tasks == [tasks[0]] + tasks[1..];
    }
  }

  lemma {:induction false} CapturedAcc(vars: Dict<Value>, tasks: seq<string>, acc: seq<(string, Value)>)
    ensures Captured(vars, tasks, acc) == acc + Captured(vars, tasks, [])
    decreases |tasks|
  {
    if |tasks| > 0 {
      if Has(vars, tasks[0]) {
        var x := [(tasks[0], Get(vars, tasks[0]))];
        CapturedAcc(vars, tasks[1..], acc + x);
        CapturedAcc(vars, tasks[1..], [] + x);
        assert [] + x == x;
      } else {
        CapturedAcc(vars, tasks[1..], acc);
      }
    }
  }

  /** The loop at discovery.py:118-120 captures exactly the configured tasks
      that `vars` holds, one pair per occurrence and in configuration order,
      each with its metadata. */
  lemma {:induction false} CapturedExactly(vars: Dict<Value>, tasks: seq<string>)
    ensures var c := Captured(vars, tasks, []); var p := Present(vars, tasks);
            |c| == |p| && forall i :: 0 <= i < |c| ==> c[i].0 == p[i] && Has(vars, p[i]) && c[i].1 == Get(vars, p[i])
    decreases |tasks|
  {
    if |tasks| > 0 {
      CapturedExactly(vars, tasks[1..]);
      var rest := Captured(vars, tasks[1..], []);
      if Has(vars, tasks[0]) {
        var x := (tasks[0], Get(vars, tasks[0]));
        assert [] + [x] == [x];
        CapturedAcc(vars, tasks[1..], [x]);
        var c := Captured(vars, tasks, []);
        var p := Present(vars, tasks);
        assert c == [x] + rest && p == [tasks[0]] + Present(vars, tasks[1..]);
        forall i | 1 <= i < |c|
          ensures c[i].0 == p[i] && Has(vars, p[i]) && c[i].1 == Get(vars, p[i])
        {
          assert c[i] == rest[i - 1] && p[i] == Present(vars, tasks[1..])[i - 1];
        }
      }
    }
  }

  /** A pair is captured iff it names a configured task that `vars` holds,
      with that task's metadata. */
  lemma CapturedIff(vars: Dict<Value>, tasks: seq<string>, p: (string, Value))
    ensures p in Captured(vars, tasks, []) <==> p.0 in tasks && Has(vars, p.0) && p.1 == Get(vars, p.0)
  {
    var c := Captured(vars, tasks, []);
    CapturedExactly(vars, tasks);
    PresentIff(vars, tasks, p.0);
    if p in c {
      var i :| 0 <= i < |c| && c[i] == p;
      assert p.0 in Present(vars, tasks);
    }
    if p.0 in tasks && Has(vars, p.0) && p.1 == Get(vars, p.0) {
      CapturedHas(vars, tasks, [], p.0);
    }
  }

  /** A captured task with falsy metadata ends the parse with a halt. */
  lemma {:induction false} TasksParsedFatal(cfg: Config, result: TasksData, captured: seq<(string, Value)>,
                                            globalDg: Value, playbook: string, hosts: Value, x: (string, Value))
    requires AllNamed(result)
    requires x in captured && !Truthy(x.1)
    ensures TasksParsed(cfg, result, captured, globalDg, playbook, hosts).Err?
    decreases |captured|
  {
    var one := TaskParsed(cfg, result, captured[0].0, captured[0].1, globalDg, playbook, hosts);
    if one.Ok? && captured[0] != x {
      TasksParsedFatal(cfg, one.value, captured[1..], globalDg, playbook, hosts, x);
    }
  }

  /** Falsy data under a recognised task name is never skipped: the parse of
      the entry's vars fails, and when that task is the first one the vars
      hold, it fails with `sys.exit(1)`, or with the raised message in debug
      mode. */
  lemma NoDataIsFatal(cfg: Config, vars: Dict<Value>, playbook: string, hosts: Value, k: int)
    requires 0 <= k < |cfg.deploymentTasks|
    requires var t := cfg.deploymentTasks[k]; Has(vars, t) && !Truthy(Get(vars, t))
    ensures HostsVarsParsed(cfg, Mapping(vars), playbook, hosts).Err?
    ensures (forall j :: 0 <= j < k ==> !Has(vars, cfg.deploymentTasks[j])) ==>
              HostsVarsParsed(cfg, Mapping(vars), playbook, hosts).halt
              == if cfg.debug then Raised("Error. Task '" + cfg.deploymentTasks[k] + "' has no data, file: " + playbook)
                 else Exit(1)
  {
    var t := cfg.deploymentTasks[k];
    var gdg := GetOr(vars, "_deployment_groups", Null);
    CapturedHas(vars, cfg.deploymentTasks, [], t);
    TasksParsedFatal(cfg, [], Captured(vars, cfg.deploymentTasks, []), gdg, playbook, hosts, (t, Get(vars, t)));
    if forall j :: 0 <= j < k ==> !Has(vars, cfg.deploymentTasks[j]) {
      CapturedFirst(vars, cfg.deploymentTasks, k);
    }
  }

  // ---------------------------------------------------------------------------
  // File-wide groups (discovery.py:132-141)
  // ---------------------------------------------------------------------------

  /** A task that declares no groups, in a file without file-wide ones, adds
      only its empty `result[dt]`, unless its data is falsy. */
  lemma TaskWithoutGroups(cfg: Config, result: TasksData, dt: string, data: Value, globalDg: Value,
                          playbook: string, hosts: Value)
    requires AllNamed(result) && data.Mapping? && !Has(data.entries, "deployment_groups") && !Truthy(globalDg)
    ensures TaskParsed(cfg, result, dt, data, globalDg, playbook, hosts)
            == if !Truthy(data) then Err(NoDataHalt(cfg, dt, playbook))
               else Ok(if Has(result, dt) then result else Put(result, dt, []))
  {
  }

  /** With a truthy file-wide list, a task's descriptors are the file-wide
      ones: they are resolved against the task's metadata with that list in
      place of its own `deployment_groups`, whose args and tags stay the
      task's own. */
  lemma FileWideGroupsUsed(cfg: Config, result: TasksData, dt: string, data: Value, globalDg: Value,
                           playbook: string, hosts: Value)
    requires AllNamed(result) && Has(result, dt) && data.Mapping? && Truthy(globalDg)
    ensures var ctx := ContextOf(Put(data.entries, "deployment_groups", globalDg), playbook, hosts);
            ctx.globalArgs == GetOr(data.entries, "args", Null) && ctx.globalTags == GetOr(data.entries, "tags", Null)
            && Declared(cfg, result, dt, data, globalDg, playbook, hosts)
               == match Iterate(globalDg)
                  case Err(h) => Err(h)
                  case Ok(originals) => Appended(cfg, ctx, originals, result, dt)
  {
    var entries := Put(data.entries, "deployment_groups", globalDg);
    GetOrPut(data.entries, "deployment_groups", globalDg, "deployment_groups", Null);
    GetOrPut(data.entries, "deployment_groups", globalDg, "args", Null);
    GetOrPut(data.entries, "deployment_groups", globalDg, "tags", Null);
  }

  /** `a` and `b` are the same task data but for their own
      `deployment_groups`, which the file-wide list `globalDg` overrides. */
  predicate SameButOwnGroups(a: Value, b: Value, globalDg: Value) {
    a == b
    || (a.Mapping? && b.Mapping? && Truthy(a) == Truthy(b)
        && Put(a.entries, "deployment_groups", globalDg) == Put(b.entries, "deployment_groups", globalDg))
  }

  // Helper for FileWideGroupsPrevail: one task.
  lemma TaskIgnoresOwnGroups(cfg: Config, result: TasksData, dt: string, a: Value, b: Value, globalDg: Value,
                             playbook: string, hosts: Value)
    requires AllNamed(result) && Truthy(globalDg) && SameButOwnGroups(a, b, globalDg)
    ensures TaskParsed(cfg, result, dt, a, globalDg, playbook, hosts)
            == TaskParsed(cfg, result, dt, b, globalDg, playbook, hosts)
  {
    if a != b && Truthy(a) {
      var result1 := if Has(result, dt) then result else Put(result, dt, []);
      PutNamed(result, dt, []);
      FileWideGroupsUsed(cfg, result1, dt, a, globalDg, playbook, hosts);
      FileWideGroupsUsed(cfg, result1, dt, b, globalDg, playbook, hosts);
    }
  }

  lemma {:induction false} TasksIgnoreOwnGroups(cfg: Config, result: TasksData, c1: seq<(string, Value)>,
                                                c2: seq<(string, Value)>, globalDg: Value, playbook: string,
                                                hosts: Value)
    requires AllNamed(result) && Truthy(globalDg) && |c1| == |c2|
    requires forall i :: 0 <= i < |c1| ==> c1[i].0 == c2[i].0 && SameButOwnGroups(c1[i].1, c2[i].1, globalDg)
    ensures TasksParsed(cfg, result, c1, globalDg, playbook, hosts)
            == TasksParsed(cfg, result, c2, globalDg, playbook, hosts)
    decreases |c1|
  {
    if |c1| > 0 {
      TaskIgnoresOwnGroups(cfg, result, c1[0].0, c1[0].1, c2[0].1, globalDg, playbook, hosts);
      var one := TaskParsed(cfg, result, c1[0].0, c1[0].1, globalDg, playbook, hosts);
      if one.Ok? {
        TasksIgnoreOwnGroups(cfg, one.value, c1[1..], c2[1..], globalDg, playbook, hosts);
      }
    }
  }

  /** `_parse_hosts_vars` with a truthy `_deployment_groups`: two vars that
      hold the same configured tasks, with data that differ only in the tasks'
      own `deployment_groups`, give the same result. */
  lemma FileWideGroupsPrevail(cfg: Config, vars1: Dict<Value>, vars2: Dict<Value>, playbook: string, hosts: Value)
    requires Truthy(GetOr(vars1, "_deployment_groups", Null))
    requires GetOr(vars1, "_deployment_groups", Null) == GetOr(vars2, "_deployment_groups", Null)
    requires forall t :: t in cfg.deploymentTasks ==> (Has(vars1, t) <==> Has(vars2, t))
    requires forall t :: t in cfg.deploymentTasks && Has(vars1, t) && Has(vars2, t) ==>
               SameButOwnGroups(Get(vars1, t), Get(vars2, t), GetOr(vars1, "_deployment_groups", Null))
    ensures HostsVarsParsed(cfg, Mapping(vars1), playbook, hosts) == HostsVarsParsed(cfg, Mapping(vars2), playbook, hosts)
  {
    var tasks := cfg.deploymentTasks;
    PresentSame(vars1, vars2, tasks);
    CapturedExactly(vars1, tasks);
    CapturedExactly(vars2, tasks);
    var c1 := Captured(vars1, tasks, []);
    var c2 := Captured(vars2, tasks, []);
    var p := Present(vars1, tasks);
    forall i | 0 <= i < |c1|
      ensures c1[i].0 == c2[i].0 && SameButOwnGroups(c1[i].1, c2[i].1, GetOr(vars1, "_deployment_groups", Null))
    {
      PresentIff(vars1, tasks, p[i]);
    }
    TasksIgnoreOwnGroups(cfg, [], c1, c2, GetOr(vars1, "_deployment_groups", Null), playbook, hosts);
  }

  lemma {:induction false} PresentSame(vars1: Dict<Value>, vars2: Dict<Value>, tasks: seq<string>)
    requires forall t :: t in tasks ==> (Has(vars1, t) <==> Has(vars2, t))
    ensures Present(vars1, tasks) == Present(vars2, tasks)
    decreases |tasks|
  {
    if |tasks| > 0 {
      assert tasks[0] in tasks;
      assert forall t :: t in tasks[1..] ==> t in tasks;
      PresentSame(vars1, vars2, tasks[1..]);
    }
  }

  /** `_find_deployment_groups` after a prefix of the files. */
  lemma {:induction false} DiscoveredPrefix(cfg: Config, fs: FileSystem, paths: seq<string>, agg: Aggregate, k: int)
    requires 0 <= k <= |paths|
    ensures Discovered(cfg, fs, paths, agg)
            == (var mid :- Discovered(cfg, fs, paths[..k], agg); Discovered(cfg, fs, paths[k..], mid))
    decreases k
  {
    if k > 0 {
      assert paths[..k][0] == paths[0] && paths[..k][1..] == paths[1..][..k - 1];
      assert paths[1..][k - 1..] == paths[k..];
      var one := FileMerged(cfg, fs, agg, paths[0]);
      if one.Ok? {
        DiscoveredPrefix(cfg, fs, paths[1..], one.value, k - 1);
      }
    } else {
      assert paths[..0] == [] && paths[0..] == paths;
    }
  }

  /** A file whose processing halts ends the whole scan with that halt: no
      later file changes the outcome. */
  lemma DiscoveryStopsAtHalt(cfg: Config, fs: FileSystem, paths: seq<string>, k: int)
    requires 0 <= k < |paths|
    requires Discovered(cfg, fs, paths[..k], []).Ok?
    requires FileMerged(cfg, fs, Discovered(cfg, fs, paths[..k], []).value, paths[k]).Err?
    ensures Discovered(cfg, fs, paths, [])
            == Err(FileMerged(cfg, fs, Discovered(cfg, fs, paths[..k], []).value, paths[k]).halt)
  {
    DiscoveredPrefix(cfg, fs, paths, [], k);
    assert paths[k..][0] == paths[k];
  }

  // ---------------------------------------------------------------------------
  // The additive merge (discovery.py:192-203)
  // ---------------------------------------------------------------------------

  /** `agg.get(g, {}).get(t, [])` */
  function Lookup(agg: Aggregate, g: string, t: string): seq<Descriptor> {
    GetOr(GetOr(agg, g, []), t, [])
  }

  /** The descriptors of `ds` that name group `g`, in order. */
  function InGroup(ds: seq<Descriptor>, g: string): seq<Descriptor>
    requires forall j :: 0 <= j < |ds| ==> Named(ds[j])
    decreases |ds|
  {
    if |ds| == 0 then [] else (if GroupName(ds[0]) == g then [ds[0]] else []) + InGroup(ds[1..], g)
  }

  /** Everything `td` declares under task `t` for group `g`, in order. */
  function Filed(td: TasksData, g: string, t: string): seq<Descriptor>
    requires AllNamed(td)
    decreases |td|
  {
    if |td| == 0 then []
    else
      assert forall j :: 0 <= j < |td[0].1| ==> Named(td[0].1[j]);
      (if td[0].0 == t then InGroup(td[0].1, g) else []) + Filed(td[1..], g, t)
  }

  /** One append lands at the end of its own group and task and nowhere else. */
  lemma MergedOneLookup(agg: Aggregate, task: string, d: Descriptor, g: string, t: string)
    requires Named(d)
    ensures Lookup(MergedOne(agg, task, d), g, t)
            == Lookup(agg, g, t) + (if g == GroupName(d) && t == task then [d] else [])
  {
    var name := GroupName(d);
    var tasks := GetOr(agg, name, []);
    var appended := GetOr(tasks, task, []) + [d];
    GetOrPut(agg, name, Put(tasks, task, appended), g, []);
    GetOrPut(tasks, task, appended, t, []);
  }

  lemma {:induction false} MergedListLookup(agg: Aggregate, task: string, ds: seq<Descriptor>, g: string, t: string)
    requires forall j :: 0 <= j < |ds| ==> Named(ds[j])
    ensures Lookup(MergedList(agg, task, ds), g, t) == Lookup(agg, g, t) + (if t == task then InGroup(ds, g) else [])
    decreases |ds|
  {
    if |ds| > 0 {
      var agg1 := MergedOne(agg, task, ds[0]);
      MergedOneLookup(agg, task, ds[0], g, t);
      MergedListLookup(agg1, task, ds[1..], g, t);
      InGroupStep(ds, g, t == task, Lookup(agg, g, t), Lookup(agg1, g, t), Lookup(MergedList(agg1, task, ds[1..]), g, t));
    }
  }

  // Helper for MergedListLookup: the inductive step on the looked-up lists.
  lemma InGroupStep(ds: seq<Descriptor>, g: string, same: bool, before: seq<Descriptor>, mid: seq<Descriptor>,
                    after: seq<Descriptor>)
    requires |ds| > 0 && forall j :: 0 <= j < |ds| ==> Named(ds[j])
    requires mid == before + (if same && g == GroupName(ds[0]) then [ds[0]] else [])
    requires after == mid + (if same then InGroup(ds[1..], g) else [])
    ensures after == before + (if same then InGroup(ds, g) else [])
  {
    InGroupCons(ds, g);
  }

  // Helper for MergedListLookup: one step of the inner loop.
  lemma InGroupCons(ds: seq<Descriptor>, g: string)
    requires |ds| > 0 && forall j :: 0 <= j < |ds| ==> Named(ds[j])
    ensures InGroup(ds, g) == (if GroupName(ds[0]) == g then [ds[0]] else []) + InGroup(ds[1..], g)
  {
  }

  /** `_update_deployment_groups` is purely additive: under every group and
      task it appends exactly the descriptors `td` declares there, in order,
      after those already present; nothing is dropped or deduplicated. */
  lemma {:induction false} MergedLookup(agg: Aggregate, td: TasksData, g: string, t: string)
    requires AllNamed(td)
    ensures Lookup(Merged(agg, td), g, t) == Lookup(agg, g, t) + Filed(td, g, t)
    decreases |td|
  {
    if |td| > 0 {
      assert forall j :: 0 <= j < |td[0].1| ==> Named(td[0].1[j]);
      var agg1 := MergedList(agg, td[0].0, td[0].1);
      MergedListLookup(agg, td[0].0, td[0].1, g, t);
      MergedLookup(agg1, td[1..], g, t);
      FiledCons(td, g, t);
      Associated(Lookup(agg, g, t), if td[0].0 == t then InGroup(td[0].1, g) else [], Filed(td[1..], g, t));
    }
  }

  // Helper for MergedLookup: one step of the outer loop.
  lemma FiledCons(td: TasksData, g: string, t: string)
    requires |td| > 0 && AllNamed(td)
    requires forall j :: 0 <= j < |td[0].1| ==> Named(td[0].1[j])
    ensures Filed(td, g, t) == (if td[0].0 == t then InGroup(td[0].1, g) else []) + Filed(td[1..], g, t)
  {
  }

  // Helper for MergedLookup: concatenation is associative.
  lemma Associated(a: seq<Descriptor>, b: seq<Descriptor>, c: seq<Descriptor>)
    ensures a + b + c == a + (b + c)
  {
  }

  /** The number of descriptors under one group. */
  function Size(tasks: Dict<seq<Descriptor>>): nat
    decreases |tasks|
  {
    if |tasks| == 0 then 0 else |tasks[0].1| + Size(tasks[1..])
  }

  /** The number of descriptors in the aggregate. */
  function Total(agg: Aggregate): nat
    decreases |agg|
  {
    if |agg| == 0 then 0 else Size(agg[0].1) + Total(agg[1..])
  }

  /** The number of descriptors `_parse_hosts_vars` returned. */
  function Count(td: TasksData): nat
    decreases |td|
  {
    if |td| == 0 then 0 else |td[0].1| + Count(td[1..])
  }

  lemma {:induction false} SizePut(tasks: Dict<seq<Descriptor>>, k: string, v: seq<Descriptor>)
    ensures Size(Put(tasks, k, v)) == Size(tasks) - |GetOr(tasks, k, [])| + |v|
    decreases |tasks|
  {
    if |tasks| > 0 && tasks[0].0 != k {
      SizePut(tasks[1..], k, v);
    }
  }

  lemma {:induction false} TotalPut(agg: Aggregate, k: string, v: Dict<seq<Descriptor>>)
    ensures Total(Put(agg, k, v)) == Total(agg) - Size(GetOr(agg, k, [])) + Size(v)
    decreases |agg|
  {
    if |agg| > 0 && agg[0].0 != k {
      TotalPut(agg[1..], k, v);
    }
  }

  /** The merge grows the aggregate by exactly the descriptors it is given. */
  lemma {:induction false} MergedTotal(agg: Aggregate, td: TasksData)
    requires AllNamed(td)
    ensures Total(Merged(agg, td)) == Total(agg) + Count(td)
    decreases |td|
  {
    if |td| > 0 {
      assert forall j :: 0 <= j < |td[0].1| ==> Named(td[0].1[j]);
      MergedListTotal(agg, td[0].0, td[0].1);
      MergedTotal(MergedList(agg, td[0].0, td[0].1), td[1..]);
    }
  }

  lemma {:induction false} MergedListTotal(agg: Aggregate, task: string, ds: seq<Descriptor>)
    requires forall j :: 0 <= j < |ds| ==> Named(ds[j])
    ensures Total(MergedList(agg, task, ds)) == Total(agg) + |ds|
    decreases |ds|
  {
    if |ds| > 0 {
      var d := ds[0];
      var tasks := GetOr(agg, GroupName(d), []);
      var appended := GetOr(tasks, task, []) + [d];
      TotalPut(agg, GroupName(d), Put(tasks, task, appended));
      SizePut(tasks, task, appended);
      MergedListTotal(MergedOne(agg, task, d), task, ds[1..]);
    }
  }

  /** Every descriptor of `ds` is filed under group `g`. */
  predicate AllIn(ds: seq<Descriptor>, g: string) {
    forall l :: 0 <= l < |ds| ==> Named(ds[l]) && GroupName(ds[l]) == g
  }

  /** Every descriptor under every task of `tasks` names group `g`. */
  predicate FiledUnder(tasks: Dict<seq<Descriptor>>, g: string) {
    forall j :: 0 <= j < |tasks| ==> AllIn(tasks[j].1, g)
  }

  /** Every descriptor sits under the group it names. */
  predicate Consistent(agg: Aggregate) {
    forall i :: 0 <= i < |agg| ==> FiledUnder(agg[i].1, agg[i].0)
  }

  lemma FiledUnderPut(tasks: Dict<seq<Descriptor>>, g: string, k: string, v: seq<Descriptor>)
    requires FiledUnder(tasks, g) && AllIn(v, g)
    ensures FiledUnder(Put(tasks, k, v), g)
  {
    var r := Put(tasks, k, v);
    forall j | 0 <= j < |r|
      ensures AllIn(r[j].1, g)
    {
      assert r[j] in r;
      InPut(tasks, k, v, r[j]);
    }
  }

  lemma FiledUnderGet(tasks: Dict<seq<Descriptor>>, g: string, k: string)
    requires FiledUnder(tasks, g)
    ensures AllIn(GetOr(tasks, k, []), g)
  {
    if Has(tasks, k) {
      GetIn(tasks, k);
    }
  }

  lemma ConsistentPut(agg: Aggregate, k: string, v: Dict<seq<Descriptor>>)
    requires Consistent(agg) && FiledUnder(v, k)
    ensures Consistent(Put(agg, k, v))
  {
    var r := Put(agg, k, v);
    forall i | 0 <= i < |r|
      ensures FiledUnder(r[i].1, r[i].0)
    {
      assert r[i] in r;
      InPut(agg, k, v, r[i]);
    }
  }

  lemma ConsistentGet(agg: Aggregate, k: string)
    requires Consistent(agg)
    ensures FiledUnder(GetOr(agg, k, []), k)
  {
    if Has(agg, k) {
      GetIn(agg, k);
    }
  }

  lemma MergedOneConsistent(agg: Aggregate, task: string, d: Descriptor)
    requires Named(d) && Consistent(agg)
    ensures Consistent(MergedOne(agg, task, d))
  {
    var g := GroupName(d);
    var tasks := GetOr(agg, g, []);
    ConsistentGet(agg, g);
    FiledUnderGet(tasks, g, task);
    var appended := GetOr(tasks, task, []) + [d];
    assert AllIn(appended, g);
    FiledUnderPut(tasks, g, task, appended);
    ConsistentPut(agg, g, Put(tasks, task, appended));
  }

  /** The merge files every descriptor under the group its `dg` names, so a
      consistent aggregate stays consistent. */
  lemma {:induction false} MergedConsistent(agg: Aggregate, td: TasksData)
    requires AllNamed(td) && Consistent(agg)
    ensures Consistent(Merged(agg, td))
    decreases |td|
  {
    if |td| > 0 {
      assert forall j :: 0 <= j < |td[0].1| ==> Named(td[0].1[j]);
      MergedListConsistent(agg, td[0].0, td[0].1);
      MergedConsistent(MergedList(agg, td[0].0, td[0].1), td[1..]);
    }
  }

  lemma {:induction false} MergedListConsistent(agg: Aggregate, task: string, ds: seq<Descriptor>)
    requires forall j :: 0 <= j < |ds| ==> Named(ds[j])
    requires Consistent(agg)
    ensures Consistent(MergedList(agg, task, ds))
    decreases |ds|
  {
    if |ds| > 0 {
      MergedOneConsistent(agg, task, ds[0]);
      MergedListConsistent(MergedOne(agg, task, ds[0]), task, ds[1..]);
    }
  }

  // ---------------------------------------------------------------------------
  // The `-e` flags (discovery.py:181-187)
  // ---------------------------------------------------------------------------

  /** Every key that becomes a flag holds a value `str()` is modelled for. */
  predicate Renderable(d: Descriptor) {
    forall i :: 0 <= i < |d| && d[i].0 !in StructuralKeys ==> Render(d[i].1).Ok?
  }

  /** One single-quoted `-e 'key="value"'` flag per non-structural key, in key
      order. */
  function Flags(d: Descriptor): seq<Value>
    requires Renderable(d)
    decreases |d|
  {
    if |d| == 0 then []
    else
      var key := d[0].0;
      (if key in StructuralKeys then [] else [Str("-e '" + key + "=\"" + Render(d[0].1).value + "\"'")])
      + Flags(d[1..])
  }

  /** `Renderable` one key at a time. */
  lemma RenderableCons(d: Descriptor)
    requires |d| > 0
    ensures Renderable(d) <==> (d[0].0 in StructuralKeys || Render(d[0].1).Ok?) && Renderable(d[1..])
  {
    if (d[0].0 in StructuralKeys || Render(d[0].1).Ok?) && Renderable(d[1..]) {
      forall i | 0 <= i < |d| && d[i].0 !in StructuralKeys
        ensures Render(d[i].1).Ok?
      {
        if i > 0 {
          assert d[i] == d[1..][i - 1];
        }
      }
    }
    if Renderable(d) {
      forall i | 0 <= i < |d[1..]| && d[1..][i].0 !in StructuralKeys
        ensures Render(d[1..][i].1).Ok?
      {
        assert d[1..][i] == d[i + 1];
      }
    }
  }

  /** The loop at discovery.py:181-187 appends exactly `Flags(d)` to a list
      `args` when every value renders, and fails otherwise; the double-quoted
      branch never fires. */
  lemma {:induction false} ExtraVarsAppendFlags(d: Descriptor, xs: seq<Value>)
    ensures ExtraVarsAppended(d, List(xs))
            == if Renderable(d) then Ok(List(xs + Flags(d))) else Err(Unsupported)
    decreases |d|
  {
    if |d| > 0 {
      RenderableCons(d);
      var key := d[0].0;
      if key in StructuralKeys {
        ExtraVarsAppendFlags(d[1..], xs);
        assert ExtraVarsAppended(d, List(xs)) == ExtraVarsAppended(d[1..], List(xs));
        if Renderable(d) {
          assert Flags(d) == [] + Flags(d[1..]) == Flags(d[1..]);
        }
      } else if Render(d[0].1).Ok? {
        var flag := Str("-e '" + key + "=\"" + Render(d[0].1).value + "\"'");
        ExtraVarsAppendFlags(d[1..], xs + [flag]);
        if Renderable(d) {
          assert xs + [flag] + Flags(d[1..]) == xs + Flags(d);
        }
      }
    } else {
      assert xs + [] == xs;
    }
  }

  /** Writing a structural key changes neither whether the descriptor renders
      nor its flags. */
  lemma {:induction false} FlagsPut(d: Descriptor, k: string, v: Value)
    requires k in StructuralKeys
    ensures Renderable(Put(d, k, v)) <==> Renderable(d)
    ensures Renderable(d) ==> Flags(Put(d, k, v)) == Flags(d)
    decreases |d|
  {
    var r := Put(d, k, v);
    if |d| == 0 {
      RenderableCons(r);
    } else {
      RenderableCons(d);
      RenderableCons(r);
      if d[0].0 != k {
        FlagsPut(d[1..], k, v);
        assert r == [d[0]] + Put(d[1..], k, v);
        assert r[1..] == Put(d[1..], k, v);
      } else {
        assert r[1..] == d[1..];
      }
    }
  }

  // ---------------------------------------------------------------------------
  // Validation (discovery.py:170-179)
  // ---------------------------------------------------------------------------

  /** The descriptors one task keeps, as a filter over its declared list: the
      descriptors validation drops are skipped and the next ones still
      processed, until a halt. */
  function KeptOf(cfg: Config, ctx: TaskContext, originals: seq<Value>): Result<seq<Descriptor>>
    decreases |originals|
  {
    if |originals| == 0 then Ok([])
    else
      var one :- Resolved(cfg, ctx, originals[0]);
      var rest :- KeptOf(cfg, ctx, originals[1..]);
      Ok((if one.Some? then [one.value] else []) + rest)
  }

  /** The loop of discovery.py:149-189 appends exactly what `KeptOf` keeps. */
  lemma {:induction false} ResolvedAllKept(cfg: Config, ctx: TaskContext, originals: seq<Value>, kept: seq<Descriptor>)
    requires forall i :: 0 <= i < |kept| ==> Named(kept[i])
    ensures ResolvedAll(cfg, ctx, originals, kept) == (var rest :- KeptOf(cfg, ctx, originals); Ok(kept + rest))
    decreases |originals|
  {
    if |originals| == 0 {
      assert kept + [] == kept;
    } else {
      var one := Resolved(cfg, ctx, originals[0]);
      var kept1 := if one.Ok? && one.value.Some? then kept + [one.value.value] else kept;
      assert originals[0..] == originals;
      ResolvedAllStep(cfg, ctx, originals, 0, kept);
      if one.Ok? {
        ResolvedAllKept(cfg, ctx, originals[1..], kept1);
      }
      KeptCombine(one, kept, ResolvedAll(cfg, ctx, originals, kept), KeptOf(cfg, ctx, originals),
                  ResolvedAll(cfg, ctx, originals[1..], kept1), KeptOf(cfg, ctx, originals[1..]));
    }
  }

  // Helper for ResolvedAllKept: the inductive step on the results alone.
  lemma KeptCombine(one: Result<Option<Descriptor>>, kept: seq<Descriptor>, all: Result<seq<Descriptor>>,
                    filtered: Result<seq<Descriptor>>, restAll: Result<seq<Descriptor>>,
                    restFiltered: Result<seq<Descriptor>>)
    requires all == if one.Err? then Err(one.halt) else restAll
    requires one.Ok? ==> restAll == (var rest :- restFiltered;
                                     Ok((if one.value.Some? then kept + [one.value.value] else kept) + rest))
    requires filtered == if one.Err? then Err(one.halt) else if restFiltered.Err? then Err(restFiltered.halt)
                         else Ok((if one.value.Some? then [one.value.value] else []) + restFiltered.value)
    ensures all == (var rest :- filtered; Ok(kept + rest))
  {
    if one.Ok? && restFiltered.Ok? {
      var head := if one.value.Some? then [one.value.value] else [];
      assert (if one.value.Some? then kept + [one.value.value] else kept) + restFiltered.value
             == kept + (head + restFiltered.value);
    }
  }

  // ---------------------------------------------------------------------------
  // Assembly (discovery.py:150-169)
  // ---------------------------------------------------------------------------

  /** What `+=` appends from an operand that is given and iterable. */
  function Added(v: Value): seq<Value>
    requires Truthy(v) ==> Iterate(v).Ok?
  {
    if Truthy(v) then Iterate(v).value else []
  }

  /** The operands assembly extends with are lists (or absent) and iterable. */
  predicate Assemblable(ctx: TaskContext, e: Descriptor) {
    && GetOr(e, "args", List([])).List?
    && (Truthy(ctx.globalArgs) ==> Iterate(ctx.globalArgs).Ok?)
    && (Truthy(ctx.globalTags) ==> Iterate(ctx.globalTags).Ok? && GetOr(e, "tags", List([])).List?)
  }

  /** `a` renders exactly when `b` does, with the same flags. */
  predicate SameFlags(a: Descriptor, b: Descriptor) {
    && (Renderable(a) <==> Renderable(b))
    && (Renderable(b) ==> Flags(a) == Flags(b))
  }

  /** discovery.py:151-155: args become the local args (or none) followed by
      the CLI environment; no other key changes. */
  lemma ArgsPreparedFields(cfg: Config, e: Descriptor, k: string, x: Value)
    requires GetOr(e, "args", List([])).List?
    ensures ArgsPrepared(cfg, e).Ok?
    ensures Has(ArgsPrepared(cfg, e).value, k) <==> k == "args" || Has(e, k)
    ensures GetOr(ArgsPrepared(cfg, e).value, k, x)
            == if k == "args" then List(GetOr(e, "args", List([])).items + StrValues(cfg.environment))
               else GetOr(e, k, x)
    ensures SameFlags(ArgsPrepared(cfg, e).value, e)
  {
    if |cfg.environment| > 0 {
      EnvironmentAdded(cfg, e, k, x);
    } else {
      Created(e, "args", k, x);
      assert GetOr(e, "args", List([])).items + StrValues(cfg.environment) == GetOr(e, "args", List([])).items;
    }
  }

  // Helper for ArgsPreparedFields: the case with a command-line environment.
  lemma EnvironmentAdded(cfg: Config, e: Descriptor, k: string, x: Value)
    requires GetOr(e, "args", List([])).List? && |cfg.environment| > 0
    ensures var d1 := if Has(e, "args") then e else Put(e, "args", List([]));
      var args := GetOr(e, "args", List([])).items + StrValues(cfg.environment);
      && ArgsPrepared(cfg, e) == Ok(Put(d1, "args", List(args)))
      && (Has(Put(d1, "args", List(args)), k) <==> k == "args" || Has(e, k))
      && GetOr(Put(d1, "args", List(args)), k, x) == (if k == "args" then List(args) else GetOr(e, k, x))
      && SameFlags(Put(d1, "args", List(args)), e)
  {
    var d1 := if Has(e, "args") then e else Put(e, "args", List([]));
    Created(e, "args", k, x);
    ExtendedFields(d1, "args", List(StrValues(cfg.environment)), k, x);
  }

  /** The hosts a descriptor targets: the CLI `limit` if given, else None
      under the task's `nolimit`, else the play's hosts. */
  function TargetHosts(cfg: Config, ctx: TaskContext): Value {
    if cfg.limit != "" then Str(cfg.limit)
    else if Truthy(GetOr(ctx.data, "nolimit", Bool(false))) then Null
    else ctx.hosts
  }

  /** discovery.py:156-163: the hosts are the CLI `limit` if given, else None
      under `nolimit`, else the entry's hosts; the playbook is the source
      file; no other key changes. */
  lemma PlacedFields(cfg: Config, ctx: TaskContext, d: Descriptor, k: string, x: Value)
    ensures Has(Placed(cfg, ctx, d), k) <==> k == "hosts" || k == "playbook" || Has(d, k)
    ensures GetOr(Placed(cfg, ctx, d), k, x)
            == if k == "hosts" then TargetHosts(cfg, ctx)
               else if k == "playbook" then Str(ctx.playbook)
               else GetOr(d, k, x)
    ensures SameFlags(Placed(cfg, ctx, d), d)
  {
    var d0 := Put(d, "hosts", ctx.hosts);
    var d1 := Put(d0, "playbook", Str(ctx.playbook));
    var d2 := if Truthy(GetOr(ctx.data, "nolimit", Bool(false))) then Put(d1, "hosts", Null) else d1;
    var d3 := if cfg.limit != "" then Put(d2, "hosts", Str(cfg.limit)) else d2;
    assert Placed(cfg, ctx, d) == d3;
    GetOrPut(d, "hosts", ctx.hosts, k, x);
    GetOrPut(d0, "playbook", Str(ctx.playbook), k, x);
    GetOrPut(d1, "hosts", Null, k, x);
    GetOrPut(d2, "hosts", Str(cfg.limit), k, x);
    FlagsPut(d, "hosts", ctx.hosts);
    FlagsPut(d0, "playbook", Str(ctx.playbook));
    FlagsPut(d1, "hosts", Null);
    FlagsPut(d2, "hosts", Str(cfg.limit));
  }

  /** discovery.py:164-165: the task-global args follow the args so far; no
      other key changes. */
  lemma GlobalArgsFields(ctx: TaskContext, d: Descriptor, k: string, x: Value)
    requires GetOr(d, "args", Null).List?
    requires Truthy(ctx.globalArgs) ==> Iterate(ctx.globalArgs).Ok?
    ensures GlobalArgsAdded(ctx, d).Ok?
    ensures Has(GlobalArgsAdded(ctx, d).value, k) <==> Has(d, k)
    ensures GetOr(GlobalArgsAdded(ctx, d).value, k, x)
            == if k == "args" then List(GetOr(d, "args", Null).items + Added(ctx.globalArgs))
               else GetOr(d, k, x)
    ensures SameFlags(GlobalArgsAdded(ctx, d).value, d)
  {
    var args := GetOr(d, "args", Null).items + Added(ctx.globalArgs);
    assert Has(d, "args");
    if !Truthy(ctx.globalArgs) {
      assert args == GetOr(d, "args", Null).items;
    }
    GetOrPut(d, "args", List(args), k, x);
    FlagsPut(d, "args", List(args));
  }

  /** discovery.py:166-169: the task-global tags follow the local tags (or
      none); no other key changes. */
  lemma GlobalTagsFields(ctx: TaskContext, d: Descriptor, k: string, x: Value)
    requires Truthy(ctx.globalTags) ==> Iterate(ctx.globalTags).Ok? && GetOr(d, "tags", List([])).List?
    ensures GlobalTagsAdded(ctx, d).Ok?
    ensures Has(GlobalTagsAdded(ctx, d).value, k) <==> Has(d, k) || (k == "tags" && Truthy(ctx.globalTags))
    ensures GetOr(GlobalTagsAdded(ctx, d).value, k, x)
            == if k == "tags" && Truthy(ctx.globalTags) then
                 List(GetOr(d, "tags", List([])).items + Added(ctx.globalTags))
               else GetOr(d, k, x)
    ensures SameFlags(GlobalTagsAdded(ctx, d).value, d)
  {
    if Truthy(ctx.globalTags) {
      var d1 := if Has(d, "tags") then d else Put(d, "tags", List([]));
      Created(d, "tags", k, x);
      ExtendedFields(d1, "tags", ctx.globalTags, k, x);
    }
  }

  // Helper for the assembly stages: a structural list key created empty when
  // missing.
  lemma Created(d: Descriptor, key: string, k: string, x: Value)
    requires key in StructuralKeys && GetOr(d, key, List([])).List?
    ensures var d1 := if Has(d, key) then d else Put(d, key, List([]));
      && GetOr(d1, key, Null) == GetOr(d, key, List([]))
      && (Has(d1, k) <==> Has(d, k) || k == key)
      && (k != key ==> GetOr(d1, k, x) == GetOr(d, k, x))
      && SameFlags(d1, d)
  {
    GetOrPut(d, key, List([]), key, Null);
    GetOrPut(d, key, List([]), k, x);
    FlagsPut(d, key, List([]));
  }

  // Helper for the assembly stages: `d[key] += operand` on a structural key
  // holding a list.
  lemma ExtendedFields(d: Descriptor, key: string, operand: Value, k: string, x: Value)
    requires key in StructuralKeys && GetOr(d, key, Null).List? && Iterate(operand).Ok?
    ensures var items := GetOr(d, key, Null).items + Iterate(operand).value;
      && Extended(d, key, operand) == Ok(Put(d, key, List(items)))
      && (Has(Put(d, key, List(items)), k) <==> Has(d, k))
      && GetOr(Put(d, key, List(items)), k, x) == (if k == key then List(items) else GetOr(d, k, x))
      && SameFlags(Put(d, key, List(items)), d)
  {
    var items := GetOr(d, key, Null).items + Iterate(operand).value;
    assert Has(d, key);
    GetOrPut(d, key, List(items), k, x);
    FlagsPut(d, key, List(items));
  }

  /** discovery.py:164-169: the task-global args follow the args so far, the
      task-global tags follow the local tags (or none); no other key changes. */
  lemma GlobalsAddedFields(ctx: TaskContext, d: Descriptor, k: string, x: Value)
    requires GetOr(d, "args", Null).List?
    requires Truthy(ctx.globalArgs) ==> Iterate(ctx.globalArgs).Ok?
    requires Truthy(ctx.globalTags) ==> Iterate(ctx.globalTags).Ok? && GetOr(d, "tags", List([])).List?
    ensures GlobalsAdded(ctx, d).Ok?
    ensures Has(GlobalsAdded(ctx, d).value, k) <==> Has(d, k) || (k == "tags" && Truthy(ctx.globalTags))
    ensures GetOr(GlobalsAdded(ctx, d).value, k, x)
            == if k == "args" then List(GetOr(d, "args", Null).items + Added(ctx.globalArgs))
               else if k == "tags" && Truthy(ctx.globalTags) then
                 List(GetOr(d, "tags", List([])).items + Added(ctx.globalTags))
               else GetOr(d, k, x)
    ensures SameFlags(GlobalsAdded(ctx, d).value, d)
  {
    GlobalArgsFields(ctx, d, k, x);
    GlobalArgsFields(ctx, d, "tags", List([]));
    GlobalArgsFields(ctx, d, "args", Null);
    var d1 := GlobalArgsAdded(ctx, d).value;
    GlobalTagsFields(ctx, d1, k, x);
    GlobalTagsFields(ctx, d1, "args", Null);
  }

  /** discovery.py:150-169, all stages together: a well-formed entry always
      assembles, and each key of the result comes from exactly one place, in
      the order the source applies them. */
  lemma AssembledFields(cfg: Config, ctx: TaskContext, e: Descriptor, k: string, x: Value)
    requires Assemblable(ctx, e)
    ensures Assembled(cfg, ctx, Mapping(e)).Ok?
    ensures Has(Assembled(cfg, ctx, Mapping(e)).value, k)
            <==> k in ["args", "hosts", "playbook"] || Has(e, k) || (k == "tags" && Truthy(ctx.globalTags))
    ensures GetOr(Assembled(cfg, ctx, Mapping(e)).value, k, x)
            == if k == "args" then
                 List(GetOr(e, "args", List([])).items + StrValues(cfg.environment) + Added(ctx.globalArgs))
               else if k == "hosts" then TargetHosts(cfg, ctx)
               else if k == "playbook" then Str(ctx.playbook)
               else if k == "tags" && Truthy(ctx.globalTags) then
                 List(GetOr(e, "tags", List([])).items + Added(ctx.globalTags))
               else GetOr(e, k, x)
    ensures SameFlags(Assembled(cfg, ctx, Mapping(e)).value, e)
  {
    PreparedPlaced(cfg, ctx, e, k, x);
    var placed := Placed(cfg, ctx, ArgsPrepared(cfg, e).value);
    GlobalsAddedFields(ctx, placed, k, x);
    assert Assembled(cfg, ctx, Mapping(e)) == GlobalsAdded(ctx, placed);
  }

  // Helper for AssembledFields: the first two stages, up to the global args
  // and tags.
  lemma PreparedPlaced(cfg: Config, ctx: TaskContext, e: Descriptor, k: string, x: Value)
    requires GetOr(e, "args", List([])).List?
    ensures ArgsPrepared(cfg, e).Ok?
    ensures var placed := Placed(cfg, ctx, ArgsPrepared(cfg, e).value);
      && GetOr(placed, "args", Null) == List(GetOr(e, "args", List([])).items + StrValues(cfg.environment))
      && GetOr(placed, "tags", List([])) == GetOr(e, "tags", List([]))
      && (Has(placed, k) <==> k in ["args", "hosts", "playbook"] || Has(e, k))
      && GetOr(placed, k, x)
         == (if k == "args" then List(GetOr(e, "args", List([])).items + StrValues(cfg.environment))
             else if k == "hosts" then TargetHosts(cfg, ctx)
             else if k == "playbook" then Str(ctx.playbook)
             else GetOr(e, k, x))
      && SameFlags(placed, e)
  {
    ArgsPreparedFields(cfg, e, k, x);
    ArgsPreparedFields(cfg, e, "args", Null);
    ArgsPreparedFields(cfg, e, "tags", List([]));
    var prepared := ArgsPrepared(cfg, e).value;
    PlacedFields(cfg, ctx, prepared, k, x);
    PlacedFields(cfg, ctx, prepared, "args", Null);
    PlacedFields(cfg, ctx, prepared, "tags", List([]));
  }

  /** discovery.py:170-187 on an assembled descriptor whose args are `args`. */
  lemma ValidatedOutcome(ctx: TaskContext, d: Descriptor, args: seq<Value>)
    requires GetOr(d, "args", Null) == List(args)
    ensures Validated(ctx, d)
            == if !Has(d, "dg")
                  || (!Has(d, "tags") && !Truthy(GetOr(ctx.data, "notags", Bool(false)))) then Ok(None)
               else if !Get(d, "dg").Str? || !Renderable(d) then Err(Unsupported)
               else Ok(Some(Put(d, "args", List(args + Flags(d)))))
  {
    ExtraVarsAppendFlags(d, args);
  }

  /** discovery.py:170-189 after assembly: an entry without `dg`, or without
      tags of its own, task-global tags or `notags`, is dropped; one whose group
      is not a string or whose values do not all render is outside the model;
      any other is kept with one `-e` flag per non-structural key appended to
      its args. The second tags test of discovery.py:175 never decides. */
  lemma ResolvedOutcome(cfg: Config, ctx: TaskContext, e: Descriptor)
    requires Assemblable(ctx, e)
    ensures Assembled(cfg, ctx, Mapping(e)).Ok?
    ensures Resolved(cfg, ctx, Mapping(e))
            == if !Has(e, "dg")
                  || (!Has(e, "tags") && !Truthy(ctx.globalTags)
                      && !Truthy(GetOr(ctx.data, "notags", Bool(false)))) then Ok(None)
               else if !Get(e, "dg").Str? || !Renderable(e) then Err(Unsupported)
               else Ok(Some(Put(Assembled(cfg, ctx, Mapping(e)).value, "args",
                                List(GetOr(e, "args", List([])).items + StrValues(cfg.environment)
                                     + Added(ctx.globalArgs) + Flags(e)))))
  {
    AssembledFields(cfg, ctx, e, "dg", Null);
    AssembledFields(cfg, ctx, e, "tags", Null);
    AssembledFields(cfg, ctx, e, "args", Null);
    ValidatedFromEntry(ctx, Assembled(cfg, ctx, Mapping(e)).value, e,
                       GetOr(e, "args", List([])).items + StrValues(cfg.environment) + Added(ctx.globalArgs),
                       Truthy(ctx.globalTags));
  }

  /** A descriptor the pass keeps holds the source file as its playbook
      (discovery.py:158); nothing after that line writes `playbook`. */
  lemma ResolvedPlaybook(cfg: Config, ctx: TaskContext, original: Value)
    ensures var r := Resolved(cfg, ctx, original);
            r.Ok? && r.value.Some? ==> Has(r.value.value, "playbook") && Get(r.value.value, "playbook") == Str(ctx.playbook)
  {
    AssembledPlaybook(cfg, ctx, original);
    var r := Resolved(cfg, ctx, original);
    if r.Ok? && r.value.Some? {
      var d := Assembled(cfg, ctx, original).value;
      var args := ExtraVarsAppended(d, GetOr(d, "args", Null)).value;
      assert r.value.value == Put(d, "args", args);
      GetOrPut(d, "args", args, "playbook", Null);
    }
  }

  // Helper for ResolvedPlaybook: assembly leaves the source file in `playbook`.
  lemma AssembledPlaybook(cfg: Config, ctx: TaskContext, original: Value)
    ensures var r := Assembled(cfg, ctx, original); r.Ok? ==> GetOr(r.value, "playbook", Null) == Str(ctx.playbook)
  {
    if original.Mapping? && ArgsPrepared(cfg, original.entries).Ok? {
      var p := Placed(cfg, ctx, ArgsPrepared(cfg, original.entries).value);
      PlacedPlaybook(cfg, ctx, ArgsPrepared(cfg, original.entries).value);
      GlobalsAddedPlaybook(ctx, p);
    }
  }

  // Helper for AssembledPlaybook: discovery.py:156-163.
  lemma PlacedPlaybook(cfg: Config, ctx: TaskContext, d: Descriptor)
    ensures GetOr(Placed(cfg, ctx, d), "playbook", Null) == Str(ctx.playbook)
  {
    var d0 := Put(d, "hosts", ctx.hosts);
    var d1 := Put(d0, "playbook", Str(ctx.playbook));
    GetOrPut(d0, "playbook", Str(ctx.playbook), "playbook", Null);
    GetOrPut(d1, "hosts", Null, "playbook", Null);
    var d2 := if Truthy(GetOr(ctx.data, "nolimit", Bool(false))) then Put(d1, "hosts", Null) else d1;
    GetOrPut(d2, "hosts", Str(cfg.limit), "playbook", Null);
  }

  // Helper for AssembledPlaybook: discovery.py:164-169.
  lemma GlobalsAddedPlaybook(ctx: TaskContext, p: Descriptor)
    ensures var r := GlobalsAdded(ctx, p); r.Ok? ==> GetOr(r.value, "playbook", Null) == GetOr(p, "playbook", Null)
  {
    ExtendedPlaybook(p, "args", ctx.globalArgs);
    if GlobalArgsAdded(ctx, p).Ok? {
      var q := GlobalArgsAdded(ctx, p).value;
      GetOrPut(q, "tags", List([]), "playbook", Null);
      ExtendedPlaybook(if Has(q, "tags") then q else Put(q, "tags", List([])), "tags", ctx.globalTags);
    }
  }

  // Helper for AssembledPlaybook: `+=` on another key leaves `playbook` alone.
  lemma ExtendedPlaybook(d: Descriptor, key: string, operand: Value)
    requires key != "playbook"
    ensures var r := Extended(d, key, operand); r.Ok? ==> GetOr(r.value, "playbook", Null) == GetOr(d, "playbook", Null)
  {
    var v := PlusAssign(GetOr(d, key, Null), operand);
    if v.Ok? {
      GetOrPut(d, key, v.value, "playbook", Null);
    }
  }

  // Helper for ResolvedOutcome: validation of `d` read off the entry `e` it
  // was assembled from.
  lemma ValidatedFromEntry(ctx: TaskContext, d: Descriptor, e: Descriptor, args: seq<Value>, globalTags: bool)
    requires Has(d, "dg") <==> Has(e, "dg")
    requires Has(d, "tags") <==> Has(e, "tags") || globalTags
    requires GetOr(d, "dg", Null) == GetOr(e, "dg", Null)
    requires GetOr(d, "args", Null) == List(args)
    requires SameFlags(d, e)
    ensures Validated(ctx, d)
            == if !Has(e, "dg")
                  || (!Has(e, "tags") && !globalTags
                      && !Truthy(GetOr(ctx.data, "notags", Bool(false)))) then Ok(None)
               else if !Get(e, "dg").Str? || !Renderable(e) then Err(Unsupported)
               else Ok(Some(Put(d, "args", List(args + Flags(e)))))
  {
    ValidatedOutcome(ctx, d, args);
  }
}

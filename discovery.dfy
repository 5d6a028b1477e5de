/** discovery.py: the relevance filter for YAML files, the extraction of task
    metadata from inventory entries, the assembly and validation of descriptors,
    and the fold of descriptors into the group -> task -> descriptors aggregate.
    Each imperative Python function is a method proved equal to a functional
    definition of what it computes; the properties live in DiscoveryFacts. */
module Discovery {
  import opened Dicts
  import opened Yaml
  import opened Settings
  import Text

  /** One descriptor dict of a `deployment_groups` list. */
  type Descriptor = Dict<Value>

  /** What `_parse_hosts_vars` returns: task name -> kept descriptors. */
  type TasksData = Dict<seq<Descriptor>>

  /** What `_find_deployment_groups` returns: group -> task -> descriptors. */
  type Aggregate = Dict<Dict<seq<Descriptor>>>

  const VarsFilesMarker := "_vars_files"

  /** The descriptor keys that never become `-e` flags. */
  const StructuralKeys := ["args", "tags", "hosts", "playbook"]

  // ---------------------------------------------------------------------------
  // Reading files: _is_gron_file and read_yaml
  // ---------------------------------------------------------------------------

  /** The loop of `_is_gron_file`: true at the first string that occurs. */
  function AnyOccurs(text: string, needles: seq<string>): (r: bool)
    ensures r <==> exists n :: n in needles && Text.Contains(text, n)
    decreases |needles|
  {
    if |needles| == 0 then false
    else
      var rest := AnyOccurs(text, needles[1..]);
      assert rest ==> exists n :: n in needles && Text.Contains(text, n) by {
        if rest {
          var n :| n in needles[1..] && Text.Contains(text, n);
          assert n in needles;
        }
      }
      assert (exists n :: n in needles && Text.Contains(text, n)) ==> Text.Contains(text, needles[0]) || rest by {
        if exists n :: n in needles && Text.Contains(text, n) {
          var n :| n in needles && Text.Contains(text, n);
          if n != needles[0] {
            assert n in needles[1..];
          }
        }
      }
      Text.Contains(text, needles[0]) || rest
  }

  /** `_is_gron_file`: a pure substring test, never a parse. */
  function IsGronFile(text: string, cfg: Config): (r: bool)
    ensures r <==> (exists t :: t in cfg.deploymentTasks && Text.Contains(text, t))
                   || Text.Contains(text, VarsFilesMarker)
  {
    AnyOccurs(text, cfg.deploymentTasks + [VarsFilesMarker])
  }

  /** The file system and the YAML parser, which the model does not describe:
      the text of every readable file, and the document `yaml.load` builds from
      a text (YAML `null` for an empty document). */
  datatype FileSystem = FileSystem(contents: map<string, string>, parse: string -> Value)

  /** `read_yaml(path, config)`: an unreadable path raises, an empty file or a
      file that does not look relevant yields None, anything else is parsed. */
  function ReadYaml(fs: FileSystem, path: string, cfg: Config): Result<Value> {
    if path !in fs.contents then Err(PythonError)
    else
      var text := fs.contents[path];
      if text == "" then Ok(Null)
      else if !IsGronFile(text, cfg) then Ok(Null)
      else Ok(fs.parse(text))
  }

  /** The vars-file path of discovery.py:74-78: a relative path replaces the last
      `/`-component of the playbook path; an absolute one is kept. */
  function VarsFilePath(playbook: string, varsFile: string): string {
    if Text.StartsWith(varsFile, "/") then varsFile
    else
      var parts := Text.Split(playbook, '/');
      Text.Join(parts[..|parts| - 1] + Text.Split(varsFile, '/'), '/')
  }

  // ---------------------------------------------------------------------------
  // One descriptor: discovery.py:150-189
  // ---------------------------------------------------------------------------

  /** What the descriptors of one task share: the task's metadata dict (after
      `deployment_groups` was replaced by a file-wide list), its global args and
      tags, the source file and the entry's hosts. */
  datatype TaskContext = TaskContext(
    data: Dict<Value>,
    globalArgs: Value,
    globalTags: Value,
    playbook: string,
    hosts: Value)

  /** `d[key] += operand`; a missing key raises, as `PlusAssign(Null, _)` does. */
  function Extended(d: Descriptor, key: string, operand: Value): Result<Descriptor> {
    var v :- PlusAssign(GetOr(d, key, Null), operand);
    Ok(Put(d, key, v))
  }

  /** The copy's args, created empty when missing and extended with the CLI
      environment (discovery.py:151-155). */
  function ArgsPrepared(cfg: Config, d: Descriptor): Result<Descriptor> {
    var d1 := if Has(d, "args") then d else Put(d, "args", List([]));
    if |cfg.environment| > 0 then Extended(d1, "args", List(StrValues(cfg.environment))) else Ok(d1)
  }

  /** The entry's hosts, the playbook, then `nolimit` and `limit`
      (discovery.py:156-163). */
  function Placed(cfg: Config, ctx: TaskContext, d: Descriptor): Descriptor {
    var d1 := Put(Put(d, "hosts", ctx.hosts), "playbook", Str(ctx.playbook));
    var d2 := if Truthy(GetOr(ctx.data, "nolimit", Bool(false))) then Put(d1, "hosts", Null) else d1;
    if cfg.limit != "" then Put(d2, "hosts", Str(cfg.limit)) else d2
  }

  /** The task-global args and tags appended (discovery.py:164-169). */
  function GlobalsAdded(ctx: TaskContext, d: Descriptor): Result<Descriptor> {
    var d1 :- GlobalArgsAdded(ctx, d);
    GlobalTagsAdded(ctx, d1)
  }

  /** discovery.py:164-165 */
  function GlobalArgsAdded(ctx: TaskContext, d: Descriptor): Result<Descriptor> {
    if Truthy(ctx.globalArgs) then Extended(d, "args", ctx.globalArgs) else Ok(d)
  }

  /** discovery.py:166-169 */
  function GlobalTagsAdded(ctx: TaskContext, d: Descriptor): Result<Descriptor> {
    if Truthy(ctx.globalTags) then
      Extended(if Has(d, "tags") then d else Put(d, "tags", List([])), "tags", ctx.globalTags)
    else Ok(d)
  }

  /** The deep copy of a descriptor with args, CLI environment, hosts, playbook,
      `nolimit`, `limit`, global args and global tags applied, in the source's
      order (discovery.py:150-169). */
  function Assembled(cfg: Config, ctx: TaskContext, original: Value): Result<Descriptor> {
    if !original.Mapping? then Err(PythonError)
    else
      var d :- ArgsPrepared(cfg, original.entries);
      GlobalsAdded(ctx, Placed(cfg, ctx, d))
  }

  /** The flag the loop at discovery.py:184-187 appends for one key, with both
      branches as written. Splitting a string always yields at least one
      piece, so the first branch is the only one ever taken. */
  function ExtraVarFlag(key: string, text: string): (flag: string)
    ensures flag == "-e '" + key + "=\"" + text + "\"'"
  {
    if |Text.Split(text, ' ')| > 0 then "-e '" + key + "=\"" + text + "\"'"
    else "-e \"" + key + "=" + text + "\""
  }

  /** The loop at discovery.py:181-187 from a given key on, with `args` the
      list value as appended so far. */
  function ExtraVarsAppended(entries: Dict<Value>, args: Value): Result<Value>
    decreases |entries|
  {
    if |entries| == 0 then Ok(args)
    else if entries[0].0 in StructuralKeys then ExtraVarsAppended(entries[1..], args)
    else
      var text :- Render(entries[0].1);
      if !args.List? then Err(PythonError)
      else ExtraVarsAppended(entries[1..], List(args.items + [Str(ExtraVarFlag(entries[0].0, text))]))
  }

  /** The descriptor after the `-e` loop: `args` extended in place. */
  function WithExtraVars(d: Descriptor): Result<Descriptor> {
    var args :- ExtraVarsAppended(d, GetOr(d, "args", Null));
    Ok(Put(d, "args", args))
  }

  /** A descriptor that can be filed: it names its group with a string. */
  predicate Named(d: Descriptor) {
    Has(d, "dg") && Get(d, "dg").Str?
  }

  function GroupName(d: Descriptor): string
    requires Named(d)
  {
    Get(d, "dg").s
  }

  /** The checks of discovery.py:170-179 and the `-e` loop of
      discovery.py:181-187 on an assembled descriptor: None when validation
      drops it. A group name that is not a string is outside the model. */
  function Validated(ctx: TaskContext, d: Descriptor): Result<Option<Descriptor>> {
    if !Has(d, "dg") then Ok(None)
    else if !Has(d, "tags") && !Truthy(GetOr(d, "tags", Null))
            && !Truthy(GetOr(ctx.data, "notags", Bool(false))) then Ok(None)
    else if !Get(d, "dg").Str? then Err(Unsupported)
    else
      var e :- WithExtraVars(d);
      Ok(Some(e))
  }

  // Helper for Resolved: a kept descriptor still names its group.
  lemma ValidatedNamed(ctx: TaskContext, d: Descriptor)
    ensures var r := Validated(ctx, d); r.Ok? && r.value.Some? ==> Named(r.value.value)
  {
    var r := Validated(ctx, d);
    if r.Ok? && r.value.Some? {
      var args := ExtraVarsAppended(d, GetOr(d, "args", Null)).value;
      assert r.value.value == Put(d, "args", args);
      GetPut(d, "args", args, "dg");
    }
  }

  /** One pass of the loop at discovery.py:149-189. */
  function Resolved(cfg: Config, ctx: TaskContext, original: Value): (r: Result<Option<Descriptor>>)
    ensures r.Ok? && r.value.Some? ==> Named(r.value.value)
  {
    var d :- Assembled(cfg, ctx, original);
    ValidatedNamed(ctx, d);
    Validated(ctx, d)
  }

  /** The loop over one task's descriptors, `kept` holding those appended so far. */
  function ResolvedAll(cfg: Config, ctx: TaskContext, originals: seq<Value>, kept: seq<Descriptor>)
    : (r: Result<seq<Descriptor>>)
    requires forall i :: 0 <= i < |kept| ==> Named(kept[i])
    ensures r.Ok? ==> forall i :: 0 <= i < |r.value| ==> Named(r.value[i])
    decreases |originals|
  {
    if |originals| == 0 then Ok(kept)
    else
      var one :- Resolved(cfg, ctx, originals[0]);
      ResolvedAll(cfg, ctx, originals[1..], if one.Some? then kept + [one.value] else kept)
  }

  // ---------------------------------------------------------------------------
  // One inventory entry's vars: _parse_hosts_vars (discovery.py:113-190)
  // ---------------------------------------------------------------------------

  /** Every descriptor of `td` can be filed. */
  predicate AllNamed(td: TasksData) {
    forall i, j :: 0 <= i < |td| && 0 <= j < |td[i].1| ==> Named(td[i].1[j])
  }

  /** The (task, metadata) pairs of discovery.py:118-120, in configuration order. */
  function Captured(vars: Dict<Value>, tasks: seq<string>, acc: seq<(string, Value)>): seq<(string, Value)>
    decreases |tasks|
  {
    if |tasks| == 0 then acc
    else Captured(vars, tasks[1..], if Has(vars, tasks[0]) then acc + [(tasks[0], Get(vars, tasks[0]))] else acc)
  }

  /** The halt for a recognised task with falsy metadata (discovery.py:124-131). */
  function NoDataHalt(cfg: Config, dt: string, playbook: string): Halt {
    if cfg.debug then Raised("Error. Task '" + dt + "' has no data, file: " + playbook) else Exit(1)
  }

  /** The metadata dict a task's descriptors are resolved against: a file-wide
      group list replaces the task's own (discovery.py:134-141). */
  function TaskMetadata(data: Value, globalDg: Value): Result<Dict<Value>> {
    if !data.Mapping? then Err(PythonError)
    else if Truthy(globalDg) then Ok(Put(data.entries, "deployment_groups", globalDg))
    else Ok(data.entries)
  }

  /** The context built from a task's metadata dict (discovery.py:142-143). */
  function ContextOf(entries: Dict<Value>, playbook: string, hosts: Value): TaskContext {
    TaskContext(entries, GetOr(entries, "args", Null), GetOr(entries, "tags", Null), playbook, hosts)
  }

  /** One pass of the loop at discovery.py:123-189. */
  function TaskParsed(cfg: Config, result: TasksData, dt: string, data: Value, globalDg: Value,
                      playbook: string, hosts: Value): (r: Result<TasksData>)
    requires AllNamed(result)
    ensures r.Ok? ==> AllNamed(r.value)
  {
    if !Truthy(data) then Err(NoDataHalt(cfg, dt, playbook))
    else
      var result1 := if Has(result, dt) then result else Put(result, dt, []);
      PutNamed(result, dt, []);
      Declared(cfg, result1, dt, data, globalDg, playbook, hosts)
  }

  /** discovery.py:134-189, once `result[dt]` exists: a task that declares no
      groups, and has no file-wide ones, contributes nothing more. */
  function Declared(cfg: Config, result: TasksData, dt: string, data: Value, globalDg: Value,
                    playbook: string, hosts: Value): (r: Result<TasksData>)
    requires AllNamed(result) && Has(result, dt)
    ensures r.Ok? ==> AllNamed(r.value)
  {
    var declared :- PyIn("deployment_groups", data);
    if !declared && !Truthy(globalDg) then Ok(result)
    else
      var entries :- TaskMetadata(data, globalDg);
      var ctx := ContextOf(entries, playbook, hosts);
      var originals :- Iterate(GetOr(entries, "deployment_groups", Null));
      Appended(cfg, ctx, originals, result, dt)
  }

  /** The loop at discovery.py:149-189: the descriptors kept from `originals`
      are appended to `result[dt]`. */
  function Appended(cfg: Config, ctx: TaskContext, originals: seq<Value>, result: TasksData, dt: string)
    : (r: Result<TasksData>)
    requires AllNamed(result) && Has(result, dt)
    ensures r.Ok? ==> AllNamed(r.value)
  {
    var kept :- ResolvedAll(cfg, ctx, originals, []);
    AppendNamed(result, dt, kept);
    Ok(Put(result, dt, Get(result, dt) + kept))
  }

  /** The remaining passes of the loop at discovery.py:123-189. */
  function TasksParsed(cfg: Config, result: TasksData, captured: seq<(string, Value)>, globalDg: Value,
                       playbook: string, hosts: Value): (r: Result<TasksData>)
    requires AllNamed(result)
    ensures r.Ok? ==> AllNamed(r.value)
    decreases |captured|
  {
    if |captured| == 0 then Ok(result)
    else
      var result1 :- TaskParsed(cfg, result, captured[0].0, captured[0].1, globalDg, playbook, hosts);
      TasksParsed(cfg, result1, captured[1..], globalDg, playbook, hosts)
  }

  /** `_parse_hosts_vars`. Its None for a list-valued vars is written as the
      empty result, which the caller treats alike. */
  function HostsVarsParsed(cfg: Config, vars: Value, playbook: string, hosts: Value): (r: Result<TasksData>)
    ensures r.Ok? ==> AllNamed(r.value)
  {
    if vars.List? then Ok([])
    else if !vars.Mapping? then Err(PythonError)
    else
      TasksParsed(cfg, [], Captured(vars.entries, cfg.deploymentTasks, []),
                  GetOr(vars.entries, "_deployment_groups", Null), playbook, hosts)
  }

  lemma PutNamed(td: TasksData, k: string, ds: seq<Descriptor>)
    requires AllNamed(td) && forall j :: 0 <= j < |ds| ==> Named(ds[j])
    ensures AllNamed(Put(td, k, ds))
  {
    var r := Put(td, k, ds);
    forall i, j | 0 <= i < |r| && 0 <= j < |r[i].1|
      ensures Named(r[i].1[j])
    {
      assert r[i] in r;
      InPut(td, k, ds, r[i]);
      if r[i] in td {
        var i' :| 0 <= i' < |td| && td[i'] == r[i];
      }
    }
  }

  lemma AppendNamed(td: TasksData, k: string, ds: seq<Descriptor>)
    requires AllNamed(td) && Has(td, k) && forall j :: 0 <= j < |ds| ==> Named(ds[j])
    ensures AllNamed(Put(td, k, Get(td, k) + ds))
  {
    GetIn(td, k);
    var i' :| 0 <= i' < |td| && td[i'] == (k, Get(td, k));
    assert forall j :: 0 <= j < |Get(td, k)| ==> Named(td[i'].1[j]);
    PutNamed(td, k, Get(td, k) + ds);
  }

  // ---------------------------------------------------------------------------
  // The aggregate: _update_deployment_groups (discovery.py:192-203)
  // ---------------------------------------------------------------------------

  /** `agg[d['dg']][task].append(d)`, creating the levels that are missing. */
  function MergedOne(agg: Aggregate, task: string, d: Descriptor): Aggregate
    requires Named(d)
  {
    var g := GroupName(d);
    var tasks := GetOr(agg, g, []);
    Put(agg, g, Put(tasks, task, GetOr(tasks, task, []) + [d]))
  }

  /** The inner loop of `_update_deployment_groups` for one task. */
  function MergedList(agg: Aggregate, task: string, ds: seq<Descriptor>): Aggregate
    requires forall j :: 0 <= j < |ds| ==> Named(ds[j])
    decreases |ds|
  {
    if |ds| == 0 then agg else MergedList(MergedOne(agg, task, ds[0]), task, ds[1..])
  }

  /** `_update_deployment_groups(td, agg)`. */
  function Merged(agg: Aggregate, td: TasksData): Aggregate
    requires AllNamed(td)
    decreases |td|
  {
    if |td| == 0 then agg
    else
      assert forall j :: 0 <= j < |td[0].1| ==> Named(td[0].1[j]);
      Merged(MergedList(agg, td[0].0, td[0].1), td[1..])
  }

  // ---------------------------------------------------------------------------
  // Files and entries: _find_deployment_groups (discovery.py:59-90)
  // ---------------------------------------------------------------------------

  /** The loop at discovery.py:73-79: each vars file is read and merged into
      `vars` with `dict.update`. */
  function VarsFilesMerged(cfg: Config, fs: FileSystem, playbook: string, vars: Value, files: seq<Value>)
    : Result<Value>
    decreases |files|
  {
    if |files| == 0 then Ok(vars)
    else if !files[0].Str? then Err(PythonError)
    else
      var loaded :- ReadYaml(fs, VarsFilePath(playbook, files[0].s), cfg);
      var vars1 :- UpdateWith(vars, loaded);
      VarsFilesMerged(cfg, fs, playbook, vars1, files[1..])
  }

  /** An entry the filter of discovery.py:66-71 passes over. */
  predicate Skipped(item: Value) {
    || !item.Mapping?
    || !Has(item.entries, "vars")
    || !Truthy(Get(item.entries, "vars"))
    || !Has(item.entries, "hosts")
  }

  /** One pass of the loop at discovery.py:65-89. */
  function EntryMerged(cfg: Config, fs: FileSystem, playbook: string, agg: Aggregate, item: Value)
    : Result<Aggregate>
  {
    if Skipped(item) then Ok(agg)
    else
      var vars := Get(item.entries, "vars");
      var marked :- PyIn(VarsFilesMarker, vars);
      var vars1 :- if marked then
          var files :- Iterate(GetOr(item.entries, "vars_files", Null));
          VarsFilesMerged(cfg, fs, playbook, vars, files)
        else Ok(vars);
      if !Truthy(vars1) then Ok(agg)
      else
        var td :- HostsVarsParsed(cfg, vars1, playbook, Get(item.entries, "hosts"));
        if |td| > 0 then Ok(Merged(agg, td)) else Ok(agg)
  }

  /** The remaining passes of the loop at discovery.py:65-89. */
  function EntriesMerged(cfg: Config, fs: FileSystem, playbook: string, agg: Aggregate, items: seq<Value>)
    : Result<Aggregate>
    decreases |items|
  {
    if |items| == 0 then Ok(agg)
    else
      var agg1 :- EntryMerged(cfg, fs, playbook, agg, items[0]);
      EntriesMerged(cfg, fs, playbook, agg1, items[1..])
  }

  /** One pass of the loop at discovery.py:61-89. */
  function FileMerged(cfg: Config, fs: FileSystem, agg: Aggregate, path: string): Result<Aggregate> {
    var data :- ReadYaml(fs, path, cfg);
    if !Truthy(data) then Ok(agg)
    else
      var items :- Iterate(data);
      EntriesMerged(cfg, fs, path, agg, items)
  }

  /** `_find_deployment_groups` over the remaining files. */
  function Discovered(cfg: Config, fs: FileSystem, paths: seq<string>, agg: Aggregate): Result<Aggregate>
    decreases |paths|
  {
    if |paths| == 0 then Ok(agg)
    else
      var agg1 :- FileMerged(cfg, fs, agg, paths[0]);
      Discovered(cfg, fs, paths[1..], agg1)
  }

  // ---------------------------------------------------------------------------
  // The Python functions, step by step
  // ---------------------------------------------------------------------------

  /** The loop at discovery.py:181-187, appending one `-e` flag per
      non-structural key to `args` in place. */
  method AddExtraVars(d: Descriptor) returns (r: Result<Descriptor>)
    ensures r == WithExtraVars(d)
  {
    var args := GetOr(d, "args", Null);
    var i := 0;
    while i < |d|
      invariant 0 <= i <= |d|
      invariant ExtraVarsAppended(d[i..], args) == ExtraVarsAppended(d, GetOr(d, "args", Null))
    {
      assert d[i..][0] == d[i] && d[i..][1..] == d[i + 1..];
      var key, value := d[i].0, d[i].1;
      if key !in StructuralKeys {
        var text :- Render(value);
        if !args.List? {
          return Err(PythonError);
        }
        args := List(args.items + [Str(ExtraVarFlag(key, text))]);
      }
      i := i + 1;
    }
    return Ok(Put(d, "args", args));
  }

  /** discovery.py:151-155 on the copy `d`. */
  method PrepareArgs(cfg: Config, d: Descriptor) returns (r: Result<Descriptor>)
    ensures r == ArgsPrepared(cfg, d)
  {
    var dg := d;
    if !Has(dg, "args") {
      dg := Put(dg, "args", List([]));
    }
    if |cfg.environment| > 0 {
      var args :- PlusAssign(GetOr(dg, "args", Null), List(StrValues(cfg.environment)));
      dg := Put(dg, "args", args);
    }
    return Ok(dg);
  }

  /** discovery.py:156-163 on the copy `d`. */
  method Place(cfg: Config, ctx: TaskContext, d: Descriptor) returns (dg: Descriptor)
    ensures dg == Placed(cfg, ctx, d)
  {
    dg := Put(d, "hosts", ctx.hosts);
    dg := Put(dg, "playbook", Str(ctx.playbook));
    if Truthy(GetOr(ctx.data, "nolimit", Bool(false))) {
      dg := Put(dg, "hosts", Null);
    }
    if cfg.limit != "" {
      dg := Put(dg, "hosts", Str(cfg.limit));
    }
  }

  /** discovery.py:164-169 on the copy `d`. */
  method AddGlobals(ctx: TaskContext, d: Descriptor) returns (r: Result<Descriptor>)
    ensures r == GlobalsAdded(ctx, d)
  {
    var dg := d;
    if Truthy(ctx.globalArgs) {
      var args :- PlusAssign(GetOr(dg, "args", Null), ctx.globalArgs);
      dg := Put(dg, "args", args);
    }
    if Truthy(ctx.globalTags) {
      if !Has(dg, "tags") {
        dg := Put(dg, "tags", List([]));
      }
      var tags :- PlusAssign(GetOr(dg, "tags", Null), ctx.globalTags);
      dg := Put(dg, "tags", tags);
    }
    return Ok(dg);
  }

  /** The body of the loop at discovery.py:149-189 for one descriptor. */
  method ResolveDescriptor(cfg: Config, ctx: TaskContext, original: Value) returns (r: Result<Option<Descriptor>>)
    ensures r == Resolved(cfg, ctx, original)
  {
    if !original.Mapping? {
      return Err(PythonError);
    }
    var prepared :- PrepareArgs(cfg, original.entries);
    var placed := Place(cfg, ctx, prepared);
    var dg :- AddGlobals(ctx, placed);
    assert Assembled(cfg, ctx, original) == Ok(dg);
    r := Validate(ctx, dg);
  }

  /** discovery.py:170-187 */
  method Validate(ctx: TaskContext, dg: Descriptor) returns (r: Result<Option<Descriptor>>)
    ensures r == Validated(ctx, dg)
  {
    if !Has(dg, "dg") {
      return Ok(None);
    }
    if !Has(dg, "tags") && !Truthy(GetOr(dg, "tags", Null)) && !Truthy(GetOr(ctx.data, "notags", Bool(false))) {
      return Ok(None);
    }
    if !Get(dg, "dg").Str? {
      return Err(Unsupported);
    }
    var e :- AddExtraVars(dg);
    return Ok(Some(e));
  }

  // Helper for AppendResolved: one pass of the descriptor loop.
  lemma ResolvedAllStep(cfg: Config, ctx: TaskContext, originals: seq<Value>, i: int, kept: seq<Descriptor>)
    requires 0 <= i < |originals|
    requires forall j :: 0 <= j < |kept| ==> Named(kept[j])
    ensures var one := Resolved(cfg, ctx, originals[i]);
            ResolvedAll(cfg, ctx, originals[i..], kept)
            == if one.Err? then Err(one.halt)
               else ResolvedAll(cfg, ctx, originals[i + 1..], if one.value.Some? then kept + [one.value.value] else kept)
  {
    assert originals[i..][0] == originals[i] && originals[i..][1..] == originals[i + 1..];
  }

  // Helper for AppendResolved: `result[dt]` after appending `ds`, then `xs`.
  lemma AppendPut(result: TasksData, dt: string, ds: seq<Descriptor>, xs: seq<Descriptor>)
    requires Has(result, dt)
    ensures var r := Put(result, dt, Get(result, dt) + ds);
            Put(r, dt, Get(r, dt) + xs) == Put(result, dt, Get(result, dt) + (ds + xs))
    ensures Put(result, dt, Get(result, dt) + []) == result
  {
    var r := Put(result, dt, Get(result, dt) + ds);
    GetPut(result, dt, Get(result, dt) + ds, dt);
    assert Get(r, dt) + xs == Get(result, dt) + (ds + xs);
    PutPut(result, dt, Get(result, dt) + ds, Get(result, dt) + (ds + xs));
    assert Get(result, dt) + [] == Get(result, dt);
    PutSame(result, dt);
  }

  /** The loop at discovery.py:149-189: each descriptor that passes validation
      is appended to `result[dt]`. */
  method AppendResolved(cfg: Config, ctx: TaskContext, originals: seq<Value>, result: TasksData, dt: string)
    returns (r: Result<TasksData>)
    requires AllNamed(result) && Has(result, dt)
    ensures r == Appended(cfg, ctx, originals, result, dt)
  {
    var res := result;
    ghost var kept: seq<Descriptor> := [];
    AppendPut(result, dt, [], []);
    var i := 0;
    while i < |originals|
      invariant 0 <= i <= |originals|
      invariant forall j :: 0 <= j < |kept| ==> Named(kept[j])
      invariant ResolvedAll(cfg, ctx, originals[i..], kept) == ResolvedAll(cfg, ctx, originals, [])
      invariant res == Put(result, dt, Get(result, dt) + kept)
    {
      var one := ResolveDescriptor(cfg, ctx, originals[i]);
      ResolvedAllStep(cfg, ctx, originals, i, kept);
      if one.Err? {
        return Err(one.halt);
      }
      if one.value.Some? {
        AppendPut(result, dt, kept, [one.value.value]);
        res := Put(res, dt, Get(res, dt) + [one.value.value]);
        kept := kept + [one.value.value];
      }
      i := i + 1;
    }
    assert originals[i..] == [];
    return Ok(res);
  }

  /** One pass of the loop at discovery.py:123-189: the task's entry in
      `result` is created, then each kept descriptor is appended to it. */
  method ParseTask(cfg: Config, result: TasksData, dt: string, data: Value, globalDg: Value,
                   playbook: string, hosts: Value) returns (r: Result<TasksData>)
    requires AllNamed(result)
    ensures r == TaskParsed(cfg, result, dt, data, globalDg, playbook, hosts)
  {
    if !Truthy(data) {
      return Err(NoDataHalt(cfg, dt, playbook));
    }
    var res := result;
    if !Has(res, dt) {
      PutNamed(res, dt, []);
      res := Put(res, dt, []);
    }
    r := ParseDeclared(cfg, res, dt, data, globalDg, playbook, hosts);
  }

  /** discovery.py:134-189 for one task whose `result[dt]` exists. */
  method ParseDeclared(cfg: Config, res: TasksData, dt: string, data: Value, globalDg: Value,
                       playbook: string, hosts: Value) returns (r: Result<TasksData>)
    requires AllNamed(res) && Has(res, dt)
    ensures r == Declared(cfg, res, dt, data, globalDg, playbook, hosts)
  {
    var declared :- PyIn("deployment_groups", data);
    if !declared && !Truthy(globalDg) {
      return Ok(res);
    }
    if !data.Mapping? {
      return Err(PythonError);
    }
    var entries := data.entries;
    if Truthy(globalDg) {
      entries := Put(entries, "deployment_groups", globalDg);
    }
    var ctx := ContextOf(entries, playbook, hosts);
    var originals :- Iterate(GetOr(entries, "deployment_groups", Null));
    r := AppendResolved(cfg, ctx, originals, res, dt);
  }

  /** `_parse_hosts_vars`: the tasks present in `vars` are captured in
      configuration order, then parsed one after the other. */
  method ParseHostsVars(cfg: Config, vars: Value, playbook: string, hosts: Value) returns (r: Result<TasksData>)
    ensures r == HostsVarsParsed(cfg, vars, playbook, hosts)
  {
    if vars.List? {
      return Ok([]);
    }
    if !vars.Mapping? {
      return Err(PythonError);
    }
    var captured := CaptureTasks(vars.entries, cfg.deploymentTasks);
    r := ParseCaptured(cfg, captured, GetOr(vars.entries, "_deployment_groups", Null), playbook, hosts);
  }

  /** The loop at discovery.py:118-120. */
  method CaptureTasks(vars: Dict<Value>, tasks: seq<string>) returns (captured: seq<(string, Value)>)
    ensures captured == Captured(vars, tasks, [])
  {
    captured := [];
    var i := 0;
    while i < |tasks|
      invariant 0 <= i <= |tasks|
      invariant Captured(vars, tasks[i..], captured) == Captured(vars, tasks, [])
    {
      assert tasks[i..][0] == tasks[i] && tasks[i..][1..] == tasks[i + 1..];
      if Has(vars, tasks[i]) {
        captured := captured + [(tasks[i], Get(vars, tasks[i]))];
      }
      i := i + 1;
    }
  }

  // Helper for ParseCaptured: one pass of its loop.
  lemma TasksParsedStep(cfg: Config, result: TasksData, captured: seq<(string, Value)>, k: int, globalDg: Value,
                        playbook: string, hosts: Value)
    requires 0 <= k < |captured| && AllNamed(result)
    ensures var next := TaskParsed(cfg, result, captured[k].0, captured[k].1, globalDg, playbook, hosts);
            TasksParsed(cfg, result, captured[k..], globalDg, playbook, hosts)
            == if next.Err? then Err(next.halt) else TasksParsed(cfg, next.value, captured[k + 1..], globalDg, playbook, hosts)
  {
    assert captured[k..][0] == captured[k] && captured[k..][1..] == captured[k + 1..];
  }

  /** The loop at discovery.py:123-189. */
  method ParseCaptured(cfg: Config, captured: seq<(string, Value)>, globalDg: Value, playbook: string, hosts: Value)
    returns (r: Result<TasksData>)
    ensures r == TasksParsed(cfg, [], captured, globalDg, playbook, hosts)
  {
    var result: TasksData := [];
    var k := 0;
    while k < |captured|
      invariant 0 <= k <= |captured|
      invariant AllNamed(result)
      invariant TasksParsed(cfg, result, captured[k..], globalDg, playbook, hosts)
             == TasksParsed(cfg, [], captured, globalDg, playbook, hosts)
    {
      var next := ParseTask(cfg, result, captured[k].0, captured[k].1, globalDg, playbook, hosts);
      TasksParsedStep(cfg, result, captured, k, globalDg, playbook, hosts);
      if next.Err? {
        return Err(next.halt);
      }
      result := next.value;
      k := k + 1;
    }
    return Ok(result);
  }

  /** The body of the inner loop of `_update_deployment_groups`: the missing
      levels are created, then the descriptor is appended to the inner dict,
      which the outer dict holds by reference. */
  method MergeOne(agg: Aggregate, task: string, d: Descriptor) returns (res: Aggregate)
    requires Named(d)
    ensures res == MergedOne(agg, task, d)
  {
    var name := Get(d, "dg").s;
    res := agg;
    if !Has(res, name) {
      res := Put(res, name, []);
    }
    var tasks := Get(res, name);
    assert tasks == GetOr(agg, name, []) by {
      GetOrPut(agg, name, [], name, []);
    }
    ghost var tasks0 := tasks;
    if !Has(tasks, task) {
      tasks := Put(tasks, task, []);
    }
    assert Get(tasks, task) == GetOr(tasks0, task, []) by {
      GetOrPut(tasks0, task, [], task, []);
    }
    ghost var appended := GetOr(tasks0, task, []) + [d];
    tasks := Put(tasks, task, Get(tasks, task) + [d]);
    assert tasks == Put(tasks0, task, appended) by {
      PutPut(tasks0, task, [], appended);
    }
    res := Put(res, name, tasks);
    assert res == Put(agg, name, tasks) by {
      PutPut(agg, name, [], tasks);
    }
  }

  /** `_update_deployment_groups(td, agg)`, which fills `agg` in place; here
      the filled dict is returned. */
  method UpdateDeploymentGroups(td: TasksData, agg: Aggregate) returns (res: Aggregate)
    requires AllNamed(td)
    ensures res == Merged(agg, td)
  {
    res := agg;
    var i := 0;
    while i < |td|
      invariant 0 <= i <= |td|
      invariant AllNamed(td[i..])
      invariant Merged(res, td[i..]) == Merged(agg, td)
    {
      MergedStep(res, td, i);
      res := MergeList(res, td[i].0, td[i].1);
      i := i + 1;
    }
    assert td[i..] == [];
  }

  // Helper for UpdateDeploymentGroups: one pass of the outer loop.
  lemma MergedStep(agg: Aggregate, td: TasksData, i: int)
    requires 0 <= i < |td| && AllNamed(td[i..])
    ensures forall j :: 0 <= j < |td[i].1| ==> Named(td[i].1[j])
    ensures AllNamed(td[i + 1..])
    ensures Merged(agg, td[i..]) == Merged(MergedList(agg, td[i].0, td[i].1), td[i + 1..])
  {
    assert td[i..][0] == td[i] && td[i..][1..] == td[i + 1..];
    assert forall j :: 0 <= j < |td[i].1| ==> Named(td[i..][0].1[j]);
  }

  /** The inner loop of `_update_deployment_groups`, for one task. */
  method MergeList(agg: Aggregate, task: string, ds: seq<Descriptor>) returns (res: Aggregate)
    requires forall j :: 0 <= j < |ds| ==> Named(ds[j])
    ensures res == MergedList(agg, task, ds)
  {
    res := agg;
    var j := 0;
    while j < |ds|
      invariant 0 <= j <= |ds|
      invariant MergedList(res, task, ds[j..]) == MergedList(agg, task, ds)
    {
      assert ds[j..][0] == ds[j] && ds[j..][1..] == ds[j + 1..];
      res := MergeOne(res, task, ds[j]);
      j := j + 1;
    }
    assert ds[j..] == [];
  }

  /** The loop at discovery.py:73-79. */
  method MergeVarsFiles(cfg: Config, fs: FileSystem, playbook: string, vars: Value, files: seq<Value>)
    returns (r: Result<Value>)
    ensures r == VarsFilesMerged(cfg, fs, playbook, vars, files)
  {
    var cur := vars;
    var i := 0;
    while i < |files|
      invariant 0 <= i <= |files|
      invariant VarsFilesMerged(cfg, fs, playbook, cur, files[i..]) == VarsFilesMerged(cfg, fs, playbook, vars, files)
    {
      assert files[i..][0] == files[i] && files[i..][1..] == files[i + 1..];
      if !files[i].Str? {
        return Err(PythonError);
      }
      var loaded :- ReadYaml(fs, VarsFilePath(playbook, files[i].s), cfg);
      cur :- UpdateWith(cur, loaded);
      i := i + 1;
    }
    return Ok(cur);
  }

  /** The body of the loop at discovery.py:65-89 for one inventory entry. */
  method ProcessEntry(cfg: Config, fs: FileSystem, playbook: string, agg: Aggregate, item: Value)
    returns (r: Result<Aggregate>)
    ensures r == EntryMerged(cfg, fs, playbook, agg, item)
  {
    if Skipped(item) {
      return Ok(agg);
    }
    var vars := Get(item.entries, "vars");
    var marked :- PyIn(VarsFilesMarker, vars);
    if marked {
      var files :- Iterate(GetOr(item.entries, "vars_files", Null));
      vars :- MergeVarsFiles(cfg, fs, playbook, vars, files);
    }
    if !Truthy(vars) {
      return Ok(agg);
    }
    var td :- ParseHostsVars(cfg, vars, playbook, Get(item.entries, "hosts"));
    if |td| > 0 {
      var merged := UpdateDeploymentGroups(td, agg);
      return Ok(merged);
    }
    return Ok(agg);
  }

  /** `_find_deployment_groups` over the files `_find_yaml_files` listed. */
  method FindDeploymentGroups(cfg: Config, fs: FileSystem, paths: seq<string>) returns (r: Result<Aggregate>)
    ensures r == Discovered(cfg, fs, paths, [])
  {
    var agg: Aggregate := [];
    var i := 0;
    while i < |paths|
      invariant 0 <= i <= |paths|
      invariant Discovered(cfg, fs, paths[i..], agg) == Discovered(cfg, fs, paths, [])
    {
      assert paths[i..][0] == paths[i] && paths[i..][1..] == paths[i + 1..];
      var data :- ReadYaml(fs, paths[i], cfg);
      if Truthy(data) {
        var items :- Iterate(data);
        var j := 0;
        ghost var agg0 := agg;
        while j < |items|
          invariant 0 <= j <= |items|
          invariant EntriesMerged(cfg, fs, paths[i], agg, items[j..]) == EntriesMerged(cfg, fs, paths[i], agg0, items)
        {
          assert items[j..][0] == items[j] && items[j..][1..] == items[j + 1..];
          agg :- ProcessEntry(cfg, fs, paths[i], agg, items[j]);
          j := j + 1;
        }
        assert items[j..] == [];
      }
      i := i + 1;
    }
    return Ok(agg);
  }
}

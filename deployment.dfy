/** deployment.py: a `Task` renders one descriptor into an `ansible-playbook`
    command line and runs it; `DeploymentGroups` wraps every descriptor of the
    discovered aggregate into a `Task`, runs the tasks registered under one
    group and task name, and lists what it holds. Both are classes whose
    methods are proved equal to functional definitions of what they compute;
    the properties live in DeploymentFacts. */
module Deployment {
  import opened Text
  import opened Dicts
  import opened Yaml
  import opened Settings
  import opened Discovery

  const DefaultBin := "/usr/bin/ansible-playbook"

  // ---------------------------------------------------------------------------
  // Task._configure
  // ---------------------------------------------------------------------------

  /** The fields `_configure` leaves behind, and how it ended when it raised. */
  datatype Configuring = Configuring(fields: Dict<Value>, halt: Option<Halt>)

  /** `ansible_bin`, or the default binary when it is unset or empty. */
  function Bin(cfg: Config): (bin: string)
    ensures bin != ""
  {
    if cfg.ansibleBin == "" then DefaultBin else cfg.ansibleBin
  }

  /** Python's `sep.join(v)`: whatever iterating `v` visits, all of it strings. */
  function Joined(v: Value, sep: char): Result<string> {
    var xs :- Iterate(v);
    if AllStr(xs) then Ok(Join(Strings(xs), sep)) else Err(PythonError)
  }

  /** A list of host patterns becomes one `:`-separated pattern; a missing
      `hosts` key is a KeyError. */
  function HostsJoined(f: Dict<Value>): Result<Dict<Value>> {
    if !Has(f, "hosts") then Err(PythonError)
    else if Get(f, "hosts").List? then
      var h :- Joined(Get(f, "hosts"), ':');
      Ok(Put(f, "hosts", Str(h)))
    else Ok(f)
  }

  /** The ` -t '<tags>'` option, present when `tags` is truthy. */
  function TagsOption(f: Dict<Value>): Result<string> {
    if Has(f, "tags") && Truthy(Get(f, "tags")) then
      var tags :- Joined(Get(f, "tags"), ',');
      Ok(" -t '" + tags + "'")
    else Ok("")
  }

  /** The ` -l "<hosts>"` option, present when `hosts` is truthy. */
  function LimitOption(f: Dict<Value>): Result<string> {
    if Has(f, "hosts") && Truthy(Get(f, "hosts")) then
      var hosts :- Render(Get(f, "hosts"));
      Ok(" -l \"" + hosts + "\"")
    else Ok("")
  }

  /** The command up to its arguments: binary, playbook, tags and limit. */
  function Head(f: Dict<Value>, cfg: Config): Result<string> {
    if !Has(f, "playbook") then Err(PythonError)
    else
      var playbook :- Render(Get(f, "playbook"));
      var tags :- TagsOption(f);
      var limit :- LimitOption(f);
      Ok(Bin(cfg) + " " + playbook + tags + limit)
  }

  /** `flag` is appended to `args` when `on` holds and it is not already in
      it; appending to anything but a list is an AttributeError. */
  function FlagAdded(f: Dict<Value>, flag: string, on: bool): (r: Result<Dict<Value>>)
    requires Has(f, "args")
    ensures r.Ok? ==> Has(r.value, "args")
    ensures r.Ok? && on ==> PyIn(flag, Get(r.value, "args")) == Ok(true)
  {
    if !on then Ok(f)
    else
      var present :- PyIn(flag, Get(f, "args"));
      if present then Ok(f)
      else if Get(f, "args").List? then
        var r := Put(f, "args", List(Get(f, "args").items + [Str(flag)]));
        GetPut(f, "args", List(Get(f, "args").items + [Str(flag)]), "args");
        Ok(r)
      else Err(PythonError)
  }

  /** The tail of `_configure` once the head is rendered: `-C`, `-D`, the
      space-joined arguments, and `cmd` stored. */
  function WithArgs(f: Dict<Value>, cfg: Config, head: string): Configuring {
    if !Has(f, "args") then Configuring(Put(f, "cmd", Str(head)), None)
    else match FlagAdded(f, "-C", cfg.ansibleDryRun)
      case Err(h) => Configuring(f, Some(h))
      case Ok(f1) =>
        match FlagAdded(f1, "-D", cfg.ansibleDebug)
        case Err(h) => Configuring(f1, Some(h))
        case Ok(f2) =>
          match Joined(Get(f2, "args"), ' ')
          case Err(h) => Configuring(f2, Some(h))
          case Ok(args) => Configuring(Put(f2, "cmd", Str(head + " " + args)), None)
  }

  /** `_configure` on fields `f`: where it leaves the fields, and the halt
      when it raises part-way. */
  function Configured(f: Dict<Value>, cfg: Config): Configuring {
    match HostsJoined(f)
    case Err(h) => Configuring(f, Some(h))
    case Ok(f1) =>
      match Head(f1, cfg)
      case Err(h) => Configuring(f1, Some(h))
      case Ok(head) => WithArgs(f1, cfg, head)
  }

  // ---------------------------------------------------------------------------
  // Task.run
  // ---------------------------------------------------------------------------

  /** What running a task does: spawn `cmd` in a shell with the environment
      given, or, in dry-run mode, only log it. */
  datatype Effect = Spawned(cmd: string, env: Dict<string>) | Previewed(cmd: string)

  /** An environment variable passed on to the playbook: nothing that belongs
      to a Python virtual environment. */
  predicate Kept(key: string) {
    !StartsWith(key, "VIRTUALENVWRAPPER") && !Contains(key, "VIRTUALENV")
    && !Contains(key, "VIRTUAL_ENV")
  }

  /** The `new_env` loop: the kept variables of `env`, written into `acc`. */
  function Sanitized(env: Dict<string>, acc: Dict<string>): Dict<string>
    decreases |env|
  {
    if |env| == 0 then acc
    else Sanitized(env[1..], if Kept(env[0].0) then Put(acc, env[0].0, env[0].1) else acc)
  }

  /** `Task.run` on fields `f` with process environment `env`. A falsy `cmd`
      exits with status 1; a `cmd` that is not a string is outside the model. */
  function TaskRun(f: Dict<Value>, cfg: Config, env: Dict<string>): Result<Effect> {
    var cmd := GetOr(f, "cmd", Null);
    if !Truthy(cmd) then Err(Exit(1))
    else if !cmd.Str? then Err(Unsupported)
    else if !cfg.dryRun then Ok(Spawned(cmd.s, Sanitized(env, [])))
    else Ok(Previewed(cmd.s))
  }

  /** One descriptor as a task (deployment.py:92-156): its fields are the
      descriptor's keys, which `_configure` rewrites in place. */
  class Task {
    var fields: Dict<Value>
    const config: Config

    /** `Task.__init__` before `_configure`: the fields are the descriptor's. */
    constructor(task: Descriptor, config: Config)
      ensures fields == task && this.config == config
    {
      fields := task;
      this.config := config;
    }

    /** `Task(task, config)`: a new task whose `_configure` has run; the
        halt is how `_configure` raised, if it did. */
    static method Create(task: Descriptor, config: Config) returns (t: Task, halt: Option<Halt>)
      ensures fresh(t) && t.config == config
      ensures Configuring(t.fields, halt) == Configured(task, config)
    {
      t := new Task(task, config);
      halt := t.Configure();
    }

    /** `_configure`: rewrites `hosts`, appends `-C`/`-D` to `args` and
        stores `cmd`; on a raise the fields keep the changes made so far. */
    method Configure() returns (halt: Option<Halt>)
      modifies this
      ensures Configuring(fields, halt) == Configured(old(fields), config)
    {
      if !Has(fields, "hosts") {
        return Some(PythonError);
      }
      if Get(fields, "hosts").List? {
        var hosts := Joined(Get(fields, "hosts"), ':');
        if hosts.Err? {
          return Some(hosts.halt);
        }
        fields := Put(fields, "hosts", Str(hosts.value));
      }
      var head := RenderHead();
      if head.Err? {
        return Some(head.halt);
      }
      halt := ConfigureArgs(head.value);
    }

    /** The head of the command: `<bin> <playbook>`, then `-t` and `-l`. */
    method RenderHead() returns (r: Result<string>)
      ensures r == Head(fields, config)
    {
      var bin := config.ansibleBin;
      if bin == "" {
        bin := DefaultBin;
      }
      if !Has(fields, "playbook") {
        return Err(PythonError);
      }
      var playbook := Render(Get(fields, "playbook"));
      if playbook.Err? {
        return Err(playbook.halt);
      }
      var cmd := bin + " " + playbook.value;
      ghost var tagsPart, limitPart := "", "";
      if Has(fields, "tags") && Truthy(Get(fields, "tags")) {
        var tags := Joined(Get(fields, "tags"), ',');
        if tags.Err? {
          return Err(tags.halt);
        }
        cmd := cmd + " -t '" + tags.value + "'";
        tagsPart := " -t '" + tags.value + "'";
      }
      assert TagsOption(fields) == Ok(tagsPart);
      assert cmd == bin + " " + playbook.value + tagsPart;
      if Has(fields, "hosts") && Truthy(Get(fields, "hosts")) {
        var hosts := Render(Get(fields, "hosts"));
        if hosts.Err? {
          return Err(hosts.halt);
        }
        cmd := cmd + " -l \"" + hosts.value + "\"";
        limitPart := " -l \"" + hosts.value + "\"";
      }
      assert LimitOption(fields) == Ok(limitPart);
      assert cmd == bin + " " + playbook.value + tagsPart + limitPart;
      return Ok(cmd);
    }

    /** Appends `flag` to `args` unless it is already there. */
    method AddFlag(flag: string, on: bool) returns (halt: Option<Halt>)
      requires Has(fields, "args")
      modifies this
      ensures var r := FlagAdded(old(fields), flag, on);
        if r.Ok? then fields == r.value && halt == None
        else fields == old(fields) && halt == Some(r.halt)
    {
      if on {
        var args := Get(fields, "args");
        var present := PyIn(flag, args);
        if present.Err? {
          return Some(present.halt);
        }
        if !present.value {
          if !args.List? {
            return Some(PythonError);
          }
          fields := Put(fields, "args", List(args.items + [Str(flag)]));
        }
      }
      return None;
    }

    /** The rest of `_configure` once the head is rendered. */
    method ConfigureArgs(head: string) returns (halt: Option<Halt>)
      modifies this
      ensures Configuring(fields, halt) == WithArgs(old(fields), config, head)
    {
      var cmd := head;
      if Has(fields, "args") {
        halt := AddFlag("-C", config.ansibleDryRun);
        if halt.Some? {
          return;
        }
        halt := AddFlag("-D", config.ansibleDebug);
        if halt.Some? {
          return;
        }
        var args := Joined(Get(fields, "args"), ' ');
        if args.Err? {
          return Some(args.halt);
        }
        cmd := cmd + " " + args.value;
      }
      fields := Put(fields, "cmd", Str(cmd));
      return None;
    }

    /** `Task.run` with the process environment `env`: the command and the
        environment it would be spawned with. */
    method Run(env: Dict<string>) returns (r: Result<Effect>)
      ensures r == TaskRun(fields, config, env)
    {
      var cmd := GetOr(fields, "cmd", Null);
      if !Truthy(cmd) {
        return Err(Exit(1));
      }
      if !cmd.Str? {
        return Err(Unsupported);
      }
      if !config.dryRun {
        var newEnv: Dict<string> := [];
        for i := 0 to |env|
          invariant Sanitized(env[i..], newEnv) == Sanitized(env, [])
        {
          assert env[i..][0] == env[i] && env[i..][1..] == env[i + 1..];
          var key := env[i].0;
          if !StartsWith(key, "VIRTUALENVWRAPPER") && !Contains(key, "VIRTUALENV") {
            if !Contains(key, "VIRTUAL_ENV") {
              newEnv := Put(newEnv, key, env[i].1);
            }
          }
        }
        return Ok(Spawned(cmd.s, newEnv));
      }
      return Ok(Previewed(cmd.s));
    }
  }

  // ---------------------------------------------------------------------------
  // DeploymentGroups: wrapping descriptors into tasks
  // ---------------------------------------------------------------------------

  /** `done` followed by the outcome of the rest, or the rest's halt. */
  function Prefixed<T>(done: seq<T>, rest: Result<seq<T>>): Result<seq<T>> {
    if rest.Ok? then Ok(done + rest.value) else rest
  }

  lemma PrefixedNothing<T>(rest: Result<seq<T>>)
    ensures Prefixed([], rest) == rest
  {
    if rest.Ok? {
      assert [] + rest.value == rest.value;
    }
  }

  lemma PrefixedStep<T>(done: seq<T>, xs: seq<T>, rest: Result<seq<T>>)
    ensures Prefixed(done + xs, rest) == Prefixed(done, if rest.Ok? then Ok(xs + rest.value) else rest)
  {
    if rest.Ok? {
      assert done + xs + rest.value == done + (xs + rest.value);
    }
  }

  /** `[Task(task, config) for task in tasks]` on fields: each descriptor
      configured in order, up to the first that raises. */
  function ConfiguredList(ds: seq<Descriptor>, cfg: Config): (r: Result<seq<Descriptor>>)
    ensures r.Ok? ==> |r.value| == |ds|
    decreases |ds|
  {
    if |ds| == 0 then Ok([])
    else
      var c := Configured(ds[0], cfg);
      if c.halt.Some? then Err(c.halt.value)
      else
        var rest :- ConfiguredList(ds[1..], cfg);
        Ok([c.fields] + rest)
  }

  lemma ConfiguredListStep(ds: seq<Descriptor>, k: int, cfg: Config, c: Configuring)
    requires 0 <= k < |ds| && c == Configured(ds[k], cfg)
    ensures ConfiguredList(ds[k..], cfg) ==
      if c.halt.Some? then Err(c.halt.value) else Prefixed([c.fields], ConfiguredList(ds[k + 1..], cfg))
  {
    assert ds[k..][0] == ds[k] && ds[k..][1..] == ds[k + 1..];
  }

  /** The inner loop of `_create_task_objects`: every task name's list
      replaced, in place, by its tasks. */
  function ConfiguredTasks(d: Dict<seq<Descriptor>>, cfg: Config): (r: Result<Dict<seq<Descriptor>>>)
    ensures r.Ok? ==> Keys(r.value) == Keys(d)
    decreases |d|
  {
    if |d| == 0 then Ok([])
    else
      var ts :- ConfiguredList(d[0].1, cfg);
      var rest :- ConfiguredTasks(d[1..], cfg);
      Ok([(d[0].0, ts)] + rest)
  }

  /** `_create_task_objects` on the whole aggregate. */
  function ConfiguredAll(a: Aggregate, cfg: Config): (r: Result<Aggregate>)
    ensures r.Ok? ==> Keys(r.value) == Keys(a)
    decreases |a|
  {
    if |a| == 0 then Ok([])
    else
      var g :- ConfiguredTasks(a[0].1, cfg);
      var rest :- ConfiguredAll(a[1..], cfg);
      Ok([(a[0].0, g)] + rest)
  }

  /** The tasks of one list. */
  function ListTasks(ts: seq<Task>): set<Task> {
    set t | t in ts
  }

  /** The fields of a list of tasks. */
  function FieldsOf(ts: seq<Task>): (fs: seq<Descriptor>)
    reads ListTasks(ts)
    ensures |fs| == |ts| && forall i :: 0 <= i < |ts| ==> fs[i] == ts[i].fields
  {
    seq(|ts|, i requires 0 <= i < |ts| reads ListTasks(ts) => ts[i].fields)
  }

  /** The tasks of one group. */
  function GroupTasks(d: Dict<seq<Task>>): set<Task> {
    set i, t | 0 <= i < |d| && t in d[i].1 :: t
  }

  /** The fields of one group's tasks, by task name. */
  function TaskFields(d: Dict<seq<Task>>): (r: Dict<seq<Descriptor>>)
    reads GroupTasks(d)
    ensures |r| == |d|
    ensures forall i :: 0 <= i < |d| ==> r[i] == (d[i].0, FieldsOf(d[i].1))
  {
    seq(|d|, i requires 0 <= i < |d| reads GroupTasks(d) => (d[i].0, FieldsOf(d[i].1)))
  }

  /** The tasks of every group. */
  function AllTasks(g: Dict<Dict<seq<Task>>>): set<Task> {
    set i, t | 0 <= i < |g| && t in GroupTasks(g[i].1) :: t
  }

  /** The fields of every task, by group and task name. */
  function GroupFields(g: Dict<Dict<seq<Task>>>): (r: Aggregate)
    reads AllTasks(g)
    ensures |r| == |g|
    ensures forall i :: 0 <= i < |g| ==> r[i] == (g[i].0, TaskFields(g[i].1))
  {
    seq(|g|, i requires 0 <= i < |g| reads AllTasks(g) => (g[i].0, TaskFields(g[i].1)))
  }

  // ---------------------------------------------------------------------------
  // DeploymentGroups.run, show_dg and show_tags on fields
  // ---------------------------------------------------------------------------

  /** The tasks of one list run in order, up to the first that halts. */
  function RanAll(fs: seq<Descriptor>, cfg: Config, env: Dict<string>): (seq<Effect>, Option<Halt>)
    decreases |fs|
  {
    if |fs| == 0 then ([], None)
    else match TaskRun(fs[0], cfg, env)
      case Err(h) => ([], Some(h))
      case Ok(e) =>
        var (rest, halt) := RanAll(fs[1..], cfg, env);
        ([e] + rest, halt)
  }

  lemma RanAllStep(fs: seq<Descriptor>, k: int, cfg: Config, env: Dict<string>)
    requires 0 <= k < |fs|
    ensures RanAll(fs[k..], cfg, env) ==
      match TaskRun(fs[k], cfg, env)
      case Err(h) => ([], Some(h))
      case Ok(e) => ([e] + RanAll(fs[k + 1..], cfg, env).0, RanAll(fs[k + 1..], cfg, env).1)
  {
    assert fs[k..][0] == fs[k] && fs[k..][1..] == fs[k + 1..];
  }

  /** The exit status when a group or task name is not found. */
  function NotFound(cfg: Config): Halt {
    Exit(if cfg.skipDgNotfound then 0 else 1)
  }

  /** `DeploymentGroups.run(group, dt)` over the tasks' fields `a`. */
  function GroupRun(a: Aggregate, cfg: Config, group: string, dt: string, env: Dict<string>)
    : (seq<Effect>, Option<Halt>)
  {
    if !Has(a, group) then ([], Some(NotFound(cfg)))
    else if !Has(Get(a, group), dt) then ([], Some(NotFound(cfg)))
    else RanAll(Get(Get(a, group), dt), cfg, env)
  }

  /** The `    - <playbook>` lines of one task list. */
  function PlaybookLines(fs: seq<Descriptor>): Result<seq<string>>
    decreases |fs|
  {
    if |fs| == 0 then Ok([])
    else if Has(fs[0], "playbook") then
      var playbook :- Render(Get(fs[0], "playbook"));
      var rest :- PlaybookLines(fs[1..]);
      Ok(["    - " + playbook] + rest)
    else PlaybookLines(fs[1..])
  }

  /** The lines of one group: each task name indented by two spaces,
      followed by its playbooks. */
  function TaskLines(d: Dict<seq<Descriptor>>): Result<seq<string>>
    decreases |d|
  {
    if |d| == 0 then Ok([])
    else
      var playbooks :- PlaybookLines(d[0].1);
      var rest :- TaskLines(d[1..]);
      Ok(["  " + d[0].0] + playbooks + rest)
  }

  /** The lines `show_dg` prints: each group name followed by its lines. */
  function GroupLines(a: Aggregate): Result<seq<string>>
    decreases |a|
  {
    if |a| == 0 then Ok([])
    else
      var tasks :- TaskLines(a[0].1);
      var rest :- GroupLines(a[1..]);
      Ok([a[0].0] + tasks + rest)
  }

  lemma GroupLinesStep(a: Aggregate, i: int)
    requires 0 <= i < |a|
    ensures GroupLines(a[i..]) ==
      if TaskLines(a[i].1).Err? then Err(TaskLines(a[i].1).halt)
      else Prefixed([a[i].0] + TaskLines(a[i].1).value, GroupLines(a[i + 1..]))
  {
    assert a[i..][0] == a[i] && a[i..][1..] == a[i + 1..];
  }

  lemma TaskLinesStep(d: Dict<seq<Descriptor>>, j: int)
    requires 0 <= j < |d|
    ensures TaskLines(d[j..]) ==
      if PlaybookLines(d[j].1).Err? then Err(PlaybookLines(d[j].1).halt)
      else Prefixed(["  " + d[j].0] + PlaybookLines(d[j].1).value, TaskLines(d[j + 1..]))
  {
    assert d[j..][0] == d[j] && d[j..][1..] == d[j + 1..];
  }

  /** The text of a listing, or the halt that prevented it. */
  function Listed(lines: Result<seq<string>>): Result<string> {
    if lines.Ok? then Ok(Unlines(lines.value)) else Err(lines.halt)
  }

  /** The lines `show_tags` prints, one per configured deployment task. */
  function TagLines(tasks: seq<string>): (lines: seq<string>)
    ensures |lines| == |tasks|
  {
    seq(|tasks|, i requires 0 <= i < |tasks| => "- " + tasks[i])
  }

  /** The discovered aggregate with every descriptor wrapped into a `Task`
      (deployment.py:12-89). */
  class DeploymentGroups {
    const config: Config
    const groups: Dict<Dict<seq<Task>>>

    /** The fields of every task, by group and task name. */
    function Contents(): Aggregate
      reads AllTasks(groups)
    {
      GroupFields(groups)
    }

    /** Every task was built with the configuration of its groups. */
    predicate Valid() {
      forall i, j, k :: 0 <= i < |groups| && 0 <= j < |groups[i].1| && 0 <= k < |groups[i].1[j].1|
        ==> groups[i].1[j].1[k].config == config
    }

    constructor(config: Config, groups: Dict<Dict<seq<Task>>>)
      ensures this.config == config && this.groups == groups
    {
      this.config := config;
      this.groups := groups;
    }

    /** `DeploymentGroups(raw, config)`: `update(raw)` followed by
        `_create_task_objects`, which raises when a task cannot be configured. */
    static method Create(raw: Aggregate, config: Config) returns (r: Result<DeploymentGroups>)
      ensures ConfiguredAll(raw, config).Err? ==> r == Err(ConfiguredAll(raw, config).halt)
      ensures ConfiguredAll(raw, config).Ok? ==>
        r.Ok? && r.value.config == config && r.value.Valid()
        && r.value.Contents() == ConfiguredAll(raw, config).value
    {
      var groups: Dict<Dict<seq<Task>>> := [];
      ghost var agg: Aggregate := [];
      assert raw[0..] == raw;
      PrefixedNothing(ConfiguredAll(raw, config));
      for i := 0 to |raw|
        invariant Prefixed(agg, ConfiguredAll(raw[i..], config)) == ConfiguredAll(raw, config)
        invariant GroupFields(groups) == agg
        invariant forall i', j, k ::
                    0 <= i' < |groups| && 0 <= j < |groups[i'].1| && 0 <= k < |groups[i'].1[j].1| ==>
                    groups[i'].1[j].1[k].config == config
      {
        assert raw[i..][0] == raw[i] && raw[i..][1..] == raw[i + 1..];
        assert forall t :: t in AllTasks(groups) ==> allocated(t);
        var tasks, halt := WrapGroup(raw[i].1, config);
        if halt.Some? {
          return Err(halt.value);
        }
        ghost var configured := ConfiguredTasks(raw[i].1, config).value;
        PrefixedStep(agg, [(raw[i].0, configured)], ConfiguredAll(raw[i + 1..], config));
        TaskFieldsOf(tasks, configured);
        GroupFieldsAppend(groups, raw[i].0, tasks);
        groups := groups + [(raw[i].0, tasks)];
        agg := agg + [(raw[i].0, configured)];
      }
      assert raw[|raw|..] == [];
      assert forall t :: t in AllTasks(groups) ==> allocated(t);
      var dg := new DeploymentGroups(config, groups);
      return Ok(dg);
    }

    /** One group of `_create_task_objects`: each task name's descriptors
        replaced by their tasks. */
    static method WrapGroup(d: Dict<seq<Descriptor>>, config: Config)
      returns (tasks: Dict<seq<Task>>, halt: Option<Halt>)
      ensures halt.None? <==> ConfiguredTasks(d, config).Ok?
      ensures halt.Some? ==> halt.value == ConfiguredTasks(d, config).halt
      ensures halt.None? ==> |tasks| == |ConfiguredTasks(d, config).value|
      ensures halt.None? ==> forall j :: 0 <= j < |tasks| ==>
                tasks[j].0 == ConfiguredTasks(d, config).value[j].0
                && |tasks[j].1| == |ConfiguredTasks(d, config).value[j].1|
      ensures halt.None? ==> forall j, k :: 0 <= j < |tasks| && 0 <= k < |tasks[j].1| ==>
                tasks[j].1[k].config == config
                && tasks[j].1[k].fields == ConfiguredTasks(d, config).value[j].1[k]
    {
      tasks := [];
      ghost var fields: Dict<seq<Descriptor>> := [];
      assert d[0..] == d;
      PrefixedNothing(ConfiguredTasks(d, config));
      for j := 0 to |d|
        invariant Prefixed(fields, ConfiguredTasks(d[j..], config)) == ConfiguredTasks(d, config)
        invariant |tasks| == |fields| == j
        invariant forall j' :: 0 <= j' < j ==>
                    tasks[j'].0 == fields[j'].0 && |tasks[j'].1| == |fields[j'].1|
        invariant forall j', k :: 0 <= j' < j && 0 <= k < |tasks[j'].1| ==>
                    tasks[j'].1[k].config == config && tasks[j'].1[k].fields == fields[j'].1[k]
      {
        assert d[j..][0] == d[j] && d[j..][1..] == d[j + 1..];
        var ts;
        ts, halt := WrapTasks(d[j].1, config);
        if halt.Some? {
          return;
        }
        ghost var configured := ConfiguredList(d[j].1, config).value;
        PrefixedStep(fields, [(d[j].0, configured)], ConfiguredTasks(d[j + 1..], config));
        tasks := tasks + [(d[j].0, ts)];
        fields := fields + [(d[j].0, configured)];
      }
      assert d[|d|..] == [];
      halt := None;
    }

    /** `[Task(task, config) for task in tasks]`. */
    static method WrapTasks(ds: seq<Descriptor>, config: Config) returns (ts: seq<Task>, halt: Option<Halt>)
      ensures halt.None? <==> ConfiguredList(ds, config).Ok?
      ensures halt.Some? ==> halt.value == ConfiguredList(ds, config).halt
      ensures halt.None? ==> |ts| == |ds| && forall k :: 0 <= k < |ts| ==>
                ts[k].config == config && ts[k].fields == ConfiguredList(ds, config).value[k]
    {
      ts := [];
      ghost var fields: seq<Descriptor> := [];
      assert ds[0..] == ds;
      PrefixedNothing(ConfiguredList(ds, config));
      for k := 0 to |ds|
        invariant Prefixed(fields, ConfiguredList(ds[k..], config)) == ConfiguredList(ds, config)
        invariant |ts| == |fields| == k
        invariant forall k' :: 0 <= k' < k ==> ts[k'].config == config && ts[k'].fields == fields[k']
      {
        var t;
        t, halt := Task.Create(ds[k], config);
        ConfiguredListStep(ds, k, config, Configuring(t.fields, halt));
        if halt.Some? {
          return;
        }
        PrefixedStep(fields, [t.fields], ConfiguredList(ds[k + 1..], config));
        ts := ts + [t];
        fields := fields + [t.fields];
      }
      assert ds[|ds|..] == [];
      halt := None;
    }

    /** `run(group, dt)`: the effects of the tasks run, in order, and the
        halt that ended the run, if any. */
    method Run(group: string, dt: string, env: Dict<string>) returns (effects: seq<Effect>, halt: Option<Halt>)
      requires Valid()
      ensures (effects, halt) == GroupRun(Contents(), config, group, dt, env)
    {
      GroupLookup(groups, group);
      if !Has(groups, group) {
        return [], Some(NotFound(config));
      }
      var tasks: Dict<seq<Task>> := Get(groups, group);
      TaskLookup(tasks, dt);
      if !Has(tasks, dt) {
        return [], Some(NotFound(config));
      }
      var ts: seq<Task> := Get(tasks, dt);
      ValidAt(group, dt);
      effects, halt := RunTasks(ts, config, env);
      GroupLookup(groups, group);
      TaskLookup(tasks, dt);
    }

    /** The tasks found under a group and task name carry this configuration. */
    lemma ValidAt(group: string, dt: string)
      requires Valid() && Has(groups, group) && Has(Get(groups, group), dt)
      ensures var ts: seq<Task> := Get(Get(groups, group), dt);
        forall k :: 0 <= k < |ts| ==> ts[k].config == config
    {
      var i := FirstIndex(groups, group);
      var j := FirstIndex(groups[i].1, dt);
    }

    /** The loop of `run` over the tasks found. */
    static method RunTasks(ts: seq<Task>, config: Config, env: Dict<string>)
      returns (effects: seq<Effect>, halt: Option<Halt>)
      requires forall k :: 0 <= k < |ts| ==> ts[k].config == config
      ensures (effects, halt) == RanAll(FieldsOf(ts), config, env)
    {
      ghost var all := FieldsOf(ts);
      effects := [];
      assert all[0..] == all;
      assert [] + RanAll(all, config, env).0 == RanAll(all, config, env).0;
      for k := 0 to |ts|
        invariant (effects + RanAll(all[k..], config, env).0, RanAll(all[k..], config, env).1)
          == RanAll(all, config, env)
        invariant forall k' :: 0 <= k' < |ts| ==> ts[k'].fields == all[k']
      {
        RanAllStep(all, k, config, env);
        var r := ts[k].Run(env);
        if r.Err? {
          assert effects + [] == effects && all == FieldsOf(ts);
          return effects, Some(r.halt);
        }
        assert effects + [r.value] + RanAll(all[k + 1..], config, env).0
            == effects + ([r.value] + RanAll(all[k + 1..], config, env).0);
        effects := effects + [r.value];
      }
      assert all[|ts|..] == [] && effects + [] == effects;
      assert all == FieldsOf(ts);
      halt := None;
    }

    /** `show_dg`: each group name, its task names indented by two spaces,
        and the playbook of every task that has one. */
    method ShowDg() returns (r: Result<string>)
      ensures r == Listed(GroupLines(Contents()))
    {
      // The fields of every task, read once; the loops below only walk them.
      var a := Contents();
      assert forall t :: t in AllTasks(groups) ==> allocated(t);
      var result := "";
      ghost var done: seq<string> := [];
      assert a[0..] == a;
      PrefixedNothing(GroupLines(a));
      for i := 0 to |a|
        invariant a == Contents()
        invariant Prefixed(done, GroupLines(a[i..])) == GroupLines(a)
        invariant result == Unlines(done)
      {
        GroupLinesStep(a, i);
        var text := TasksText(a[i].1);
        if text.Err? {
          return Err(text.halt);
        }
        ghost var lines := TaskLines(a[i].1).value;
        PrefixedStep(done, [a[i].0] + lines, GroupLines(a[i + 1..]));
        UnlinesConcat(done, [a[i].0] + lines);
        UnlinesConcat([a[i].0], lines);
        result := result + a[i].0 + "\n" + text.value;
        done := done + ([a[i].0] + lines);
      }
      assert a[|a|..] == [] && done + [] == done;
      return Ok(result);
    }

    /** `show_tags`: one `- <task>` line per configured deployment task. */
    method ShowTags() returns (r: string)
      ensures r == Unlines(TagLines(config.deploymentTasks))
    {
      var tasks := config.deploymentTasks;
      r := "";
      for i := 0 to |tasks|
        invariant r == Unlines(TagLines(tasks[..i]))
      {
        assert TagLines(tasks[..i + 1]) == TagLines(tasks[..i]) + ["- " + tasks[i]];
        UnlinesConcat(TagLines(tasks[..i]), ["- " + tasks[i]]);
        r := r + "- " + tasks[i] + "\n";
      }
      assert tasks[..|tasks|] == tasks;
    }
  }

  /** The lines `show_dg` prints under one group. */
  method TasksText(d: Dict<seq<Descriptor>>) returns (r: Result<string>)
    ensures r == Listed(TaskLines(d))
  {
    var result := "";
    ghost var done: seq<string> := [];
    assert d[0..] == d;
    PrefixedNothing(TaskLines(d));
    for j := 0 to |d|
      invariant Prefixed(done, TaskLines(d[j..])) == TaskLines(d)
      invariant result == Unlines(done)
    {
      TaskLinesStep(d, j);
      var text := PlaybooksText(d[j].1);
      if text.Err? {
        return Err(text.halt);
      }
      ghost var lines := PlaybookLines(d[j].1).value;
      PrefixedStep(done, ["  " + d[j].0] + lines, TaskLines(d[j + 1..]));
      UnlinesConcat(done, ["  " + d[j].0] + lines);
      UnlinesConcat(["  " + d[j].0], lines);
      result := result + "  " + d[j].0 + "\n" + text.value;
      done := done + (["  " + d[j].0] + lines);
    }
    assert d[|d|..] == [] && done + [] == done;
    return Ok(result);
  }

  /** The playbook lines `show_dg` prints under one task name. */
  method PlaybooksText(fs: seq<Descriptor>) returns (r: Result<string>)
    ensures r == Listed(PlaybookLines(fs))
  {
    var result := "";
    ghost var done: seq<string> := [];
    assert fs[0..] == fs;
    PrefixedNothing(PlaybookLines(fs));
    for k := 0 to |fs|
      invariant Prefixed(done, PlaybookLines(fs[k..])) == PlaybookLines(fs)
      invariant result == Unlines(done)
    {
      assert fs[k..][0] == fs[k] && fs[k..][1..] == fs[k + 1..];
      if Has(fs[k], "playbook") {
        var playbook := Render(Get(fs[k], "playbook"));
        if playbook.Err? {
          return Err(playbook.halt);
        }
        var line := "    - " + playbook.value;
        PrefixedStep(done, [line], PlaybookLines(fs[k + 1..]));
        UnlinesConcat(done, [line]);
        result := result + line + "\n";
        done := done + [line];
      }
    }
    assert fs[|fs|..] == [] && done + [] == done;
    return Ok(result);
  }

  /** Tasks whose fields are `fields`, position by position, have contents
      `fields`. */
  lemma TaskFieldsOf(tasks: Dict<seq<Task>>, fields: Dict<seq<Descriptor>>)
    requires |tasks| == |fields|
    requires forall j :: 0 <= j < |tasks| ==> tasks[j].0 == fields[j].0 && |tasks[j].1| == |fields[j].1|
    requires forall j, k :: 0 <= j < |tasks| && 0 <= k < |tasks[j].1| ==> tasks[j].1[k].fields == fields[j].1[k]
    ensures TaskFields(tasks) == fields
  {
    forall j | 0 <= j < |tasks|
      ensures TaskFields(tasks)[j] == fields[j]
    {
      assert FieldsOf(tasks[j].1) == fields[j].1;
    }
  }

  /** The contents of one more group are its tasks' fields. */
  lemma GroupFieldsAppend(groups: Dict<Dict<seq<Task>>>, name: string, tasks: Dict<seq<Task>>)
    ensures GroupFields(groups + [(name, tasks)]) == GroupFields(groups) + [(name, TaskFields(tasks))]
  {
    var g := groups + [(name, tasks)];
    forall i | 0 <= i < |groups|
      ensures TaskFields(g[i].1) == TaskFields(groups[i].1)
    {
      assert g[i] == groups[i];
    }
  }

  /** Looking a group up among the tasks or among their fields agrees. */
  lemma GroupLookup(g: Dict<Dict<seq<Task>>>, group: string)
    ensures Has(GroupFields(g), group) <==> Has(g, group)
    ensures Has(g, group) ==> Get(GroupFields(g), group) == TaskFields(Get(g, group))
  {
    var a := GroupFields(g);
    SameKeys(g, a);
    if Has(g, group) {
      var i := FirstIndex(g, group);
      var i' := FirstIndex(a, group);
      assert i' == i;
    }
  }

  /** Looking a task name up among the tasks or among their fields agrees. */
  lemma TaskLookup(d: Dict<seq<Task>>, dt: string)
    ensures Has(TaskFields(d), dt) <==> Has(d, dt)
    ensures Has(d, dt) ==> Get(TaskFields(d), dt) == FieldsOf(Get(d, dt))
  {
    var a := TaskFields(d);
    SameKeys(d, a);
    if Has(d, dt) {
      var j := FirstIndex(d, dt);
      var j' := FirstIndex(a, dt);
      assert j' == j;
    }
  }

  /** Two dicts listing the same keys in the same order agree on which keys
      they hold. */
  lemma SameKeys<V, W>(d: Dict<V>, e: Dict<W>)
    requires |d| == |e| && forall i :: 0 <= i < |d| ==> d[i].0 == e[i].0
    ensures Keys(d) == Keys(e)
  {
  }
}

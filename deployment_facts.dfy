/** What deployment.py promises about the functional definitions of
    Deployment: the command `_configure` renders and that re-running it
    changes nothing, that a configured task always has a command to run, the
    environment the playbook is spawned with, the shape of the wrapped
    aggregate, how a run ends, and what `show_dg` and `show_tags` list. */
module DeploymentFacts {
  import opened Text
  import opened Dicts
  import opened Yaml
  import opened Settings
  import opened Discovery
  import opened Deployment

  // ---------------------------------------------------------------------------
  // Task._configure (deployment.py:108-130)
  // ---------------------------------------------------------------------------

  /** `f` and `g` hold the same value, or both nothing, under `k`. */
  predicate Agree(f: Dict<Value>, g: Dict<Value>, k: string) {
    Has(f, k) == Has(g, k) && (Has(f, k) ==> Get(f, k) == Get(g, k))
  }

  lemma PutAgrees(d: Dict<Value>, k: string, v: Value, k': string)
    requires k' != k
    ensures Agree(Put(d, k, v), d, k')
  {
    if Has(d, k') {
      GetPut(d, k, v, k');
    }
  }

  /** The head of the command reads only `playbook`, `tags` and `hosts`. */
  lemma HeadAgrees(f: Dict<Value>, g: Dict<Value>, cfg: Config)
    requires Agree(f, g, "playbook") && Agree(f, g, "tags") && Agree(f, g, "hosts")
    ensures Head(f, cfg) == Head(g, cfg)
  {
  }

  /** Adding a flag touches nothing but `args`, and a flag already in
      `args` stays there. */
  lemma FlagAddedAgrees(f: Dict<Value>, flag: string, on: bool, k: string, x: string)
    requires Has(f, "args") && FlagAdded(f, flag, on).Ok?
    ensures k != "args" ==> Agree(FlagAdded(f, flag, on).value, f, k)
    ensures PyIn(x, Get(f, "args")) == Ok(true) ==> PyIn(x, Get(FlagAdded(f, flag, on).value, "args")) == Ok(true)
  {
    var args := Get(f, "args");
    if on && PyIn(flag, args) == Ok(false) {
      var args' := List(args.items + [Str(flag)]);
      GetPut(f, "args", args', "args");
      if k != "args" {
        PutAgrees(f, "args", args', k);
      }
    }
  }

  /** Joining the hosts leaves a `hosts` that is not a list, and touches
      nothing else. */
  lemma HostsJoinedFacts(f: Dict<Value>, k: string)
    requires HostsJoined(f).Ok?
    ensures Has(f, "hosts") && Has(HostsJoined(f).value, "hosts")
    ensures !Get(HostsJoined(f).value, "hosts").List?
    ensures k != "hosts" ==> Agree(HostsJoined(f).value, f, k)
  {
    if Get(f, "hosts").List? {
      var h := Str(Joined(Get(f, "hosts"), ':').value);
      GetPut(f, "hosts", h, "hosts");
      if k != "hosts" {
        PutAgrees(f, "hosts", h, k);
      }
    }
  }

  /** A `_configure` that completes: the hosts join and the head render, and
      the rest is the tail after the head. */
  lemma ConfiguredStages(f: Dict<Value>, cfg: Config)
    requires Configured(f, cfg).halt.None?
    ensures HostsJoined(f).Ok? && Head(HostsJoined(f).value, cfg).Ok?
    ensures Configured(f, cfg) == WithArgs(HostsJoined(f).value, cfg, Head(HostsJoined(f).value, cfg).value)
  {
  }

  /** The tail completes: `cmd` is the head, then the joined arguments. */
  lemma WithArgsCmd(f: Dict<Value>, cfg: Config, head: string)
    requires WithArgs(f, cfg, head).halt.None?
    ensures var c := WithArgs(f, cfg, head).fields;
      Has(c, "cmd") && Get(c, "cmd").Str? && StartsWith(Get(c, "cmd").s, head)
  {
    var c := WithArgs(f, cfg, head).fields;
    var cmd;
    if Has(f, "args") {
      var f2 := FlagAdded(f, "-C", cfg.ansibleDryRun).value;
      var f3 := FlagAdded(f2, "-D", cfg.ansibleDebug).value;
      cmd := head + " " + Joined(Get(f3, "args"), ' ').value;
      assert c == Put(f3, "cmd", Str(cmd));
      GetPut(f3, "cmd", Str(cmd), "cmd");
    } else {
      cmd := head;
      GetPut(f, "cmd", Str(cmd), "cmd");
    }
    assert cmd[..|head|] == head;
  }

  /** The head starts with the binary and the playbook. */
  lemma HeadPrefix(f: Dict<Value>, cfg: Config)
    requires Head(f, cfg).Ok?
    ensures Has(f, "playbook") && Render(Get(f, "playbook")).Ok?
    ensures StartsWith(Head(f, cfg).value, Bin(cfg) + " " + Render(Get(f, "playbook")).value)
  {
  }

  lemma StartsWithTrans(s: string, t: string, p: string)
    requires StartsWith(s, t) && StartsWith(t, p)
    ensures StartsWith(s, p)
  {
    assert s[..|p|] == t[..|p|];
  }

  /** `_configure` succeeded on `f`: the stored `cmd` is a string that starts
      with the binary and the playbook. */
  lemma {:induction false} ConfiguredCommand(f: Descriptor, cfg: Config)
    requires Configured(f, cfg).halt.None?
    ensures Has(f, "hosts") && Has(f, "playbook") && Render(Get(f, "playbook")).Ok?
    ensures var c := Configured(f, cfg).fields;
      Has(c, "cmd") && Get(c, "cmd").Str?
      && StartsWith(Get(c, "cmd").s, Bin(cfg) + " " + Render(Get(f, "playbook")).value)
  {
    ConfiguredStages(f, cfg);
    var f1 := HostsJoined(f).value;
    HostsJoinedFacts(f, "playbook");
    var head := Head(f1, cfg).value;
    HeadPrefix(f1, cfg);
    WithArgsCmd(f1, cfg, head);
    var c := WithArgs(f1, cfg, head).fields;
    StartsWithTrans(Get(c, "cmd").s, head, Bin(cfg) + " " + Render(Get(f, "playbook")).value);
  }

  /** The tail of `_configure` run again on what it produced: the flags are
      already in `args`, so it renders the same `cmd` and changes nothing. */
  lemma WithArgsIdempotent(f: Dict<Value>, cfg: Config, head: string)
    requires WithArgs(f, cfg, head).halt.None?
    ensures var c := WithArgs(f, cfg, head).fields;
      WithArgs(c, cfg, head) == Configuring(c, None)
      && Agree(c, f, "hosts") && Agree(c, f, "playbook") && Agree(c, f, "tags")
  {
    var c := WithArgs(f, cfg, head).fields;
    if !Has(f, "args") {
      assert c == Put(f, "cmd", Str(head));
      PutAgrees(f, "cmd", Str(head), "hosts");
      PutAgrees(f, "cmd", Str(head), "playbook");
      PutAgrees(f, "cmd", Str(head), "tags");
      PutAgrees(f, "cmd", Str(head), "args");
      PutPut(f, "cmd", Str(head), Str(head));
    } else {
      var f2 := FlagAdded(f, "-C", cfg.ansibleDryRun).value;
      var f3 := FlagAdded(f2, "-D", cfg.ansibleDebug).value;
      var cmd := Str(head + " " + Joined(Get(f3, "args"), ' ').value);
      assert c == Put(f3, "cmd", cmd);
      FlagAddedAgrees(f, "-C", cfg.ansibleDryRun, "hosts", "-C");
      FlagAddedAgrees(f, "-C", cfg.ansibleDryRun, "playbook", "-C");
      FlagAddedAgrees(f, "-C", cfg.ansibleDryRun, "tags", "-C");
      FlagAddedAgrees(f2, "-D", cfg.ansibleDebug, "hosts", "-C");
      FlagAddedAgrees(f2, "-D", cfg.ansibleDebug, "playbook", "-C");
      FlagAddedAgrees(f2, "-D", cfg.ansibleDebug, "tags", "-C");
      PutAgrees(f3, "cmd", cmd, "hosts");
      PutAgrees(f3, "cmd", cmd, "playbook");
      PutAgrees(f3, "cmd", cmd, "tags");
      PutAgrees(f3, "cmd", cmd, "args");
      assert FlagAdded(c, "-C", cfg.ansibleDryRun) == Ok(c);
      assert FlagAdded(c, "-D", cfg.ansibleDebug) == Ok(c);
      PutPut(f3, "cmd", cmd, cmd);
    }
  }

  /** Running `_configure` again on what it produced changes nothing and
      raises nothing: the hosts are already joined, the flags already in
      `args`, and `cmd` is rendered to the same text. */
  lemma {:induction false} ConfigureIdempotent(f: Descriptor, cfg: Config)
    requires Configured(f, cfg).halt.None?
    ensures var c := Configured(f, cfg).fields;
      Configured(c, cfg) == Configuring(c, None)
  {
    ConfiguredStages(f, cfg);
    var f1 := HostsJoined(f).value;
    HostsJoinedFacts(f, "playbook");
    var head := Head(f1, cfg).value;
    var c := Configured(f, cfg).fields;
    WithArgsIdempotent(f1, cfg, head);
    assert HostsJoined(c) == Ok(c);
    HeadAgrees(c, f1, cfg);
  }

  // ---------------------------------------------------------------------------
  // The command of a well-formed descriptor, in closed form
  // ---------------------------------------------------------------------------

  /** Hosts as discovery produces them: None, a pattern, or a list of them. */
  predicate PlainHosts(h: Value) {
    h.Null? || h.Str? || (h.List? && AllStr(h.items))
  }

  /** A descriptor whose values have the shapes discovery gives them: a
      string playbook, plain hosts, `tags` absent or a list of strings, and
      `args` a list of strings. */
  predicate Plain(f: Descriptor) {
    && Has(f, "playbook") && Get(f, "playbook").Str?
    && Has(f, "hosts") && PlainHosts(Get(f, "hosts"))
    && (Has(f, "tags") ==> Get(f, "tags").List? && AllStr(Get(f, "tags").items))
    && Has(f, "args") && Get(f, "args").List? && AllStr(Get(f, "args").items)
  }

  /** The host pattern passed to `-l`: a list joined with `:`, None as
      nothing. */
  function HostsText(h: Value): string
    requires PlainHosts(h)
  {
    match h
    case Str(s) => s
    case List(xs) => Join(Strings(xs), ':')
    case _ => ""
  }

  /** `flag` appended to the arguments when `on` holds and it is missing. */
  function WithFlag(xs: seq<Value>, flag: string, on: bool): (ys: seq<Value>)
    ensures AllStr(xs) ==> AllStr(ys)
  {
    if on && Str(flag) !in xs then xs + [Str(flag)] else xs
  }

  /** The arguments after `-C` (ansible dry run) and `-D` (ansible debug). */
  function ArgsAfter(xs: seq<Value>, cfg: Config): (ys: seq<Value>)
    ensures AllStr(xs) ==> AllStr(ys)
  {
    WithFlag(WithFlag(xs, "-C", cfg.ansibleDryRun), "-D", cfg.ansibleDebug)
  }

  /** The `-t` option of a plain descriptor: its tags joined with `,`, when
      there are any. */
  function TagsText(f: Descriptor): string
    requires Plain(f)
  {
    var tags := if Has(f, "tags") then Get(f, "tags").items else [];
    if tags != [] then " -t '" + Join(Strings(tags), ',') + "'" else ""
  }

  /** The `-l` option of a plain descriptor: its host pattern, when it is
      not empty. */
  function LimitText(f: Descriptor): string
    requires Plain(f)
  {
    var hosts := HostsText(Get(f, "hosts"));
    if hosts != "" then " -l \"" + hosts + "\"" else ""
  }

  /** The command of a plain descriptor:
      `<bin> <playbook>[ -t '<tags>'][ -l "<hosts>"] <args>`. */
  function PlainCmd(f: Descriptor, cfg: Config): string
    requires Plain(f)
  {
    Bin(cfg) + " " + Get(f, "playbook").s + TagsText(f) + LimitText(f)
    + " " + Join(Strings(ArgsAfter(Get(f, "args").items, cfg)), ' ')
  }

  /** The fields of a plain descriptor after `_configure`: hosts joined,
      flags added, and the command stored. */
  function PlainFields(f: Descriptor, cfg: Config): Descriptor
    requires Plain(f)
  {
    var h := Get(f, "hosts");
    var f1 := if h.List? then Put(f, "hosts", Str(HostsText(h))) else f;
    Put(Put(f1, "args", List(ArgsAfter(Get(f, "args").items, cfg))), "cmd", Str(PlainCmd(f, cfg)))
  }

  lemma PlainHostsJoined(f: Descriptor)
    requires Plain(f)
    ensures var h := Get(f, "hosts");
      HostsJoined(f) == Ok(if h.List? then Put(f, "hosts", Str(HostsText(h))) else f)
  {
  }

  /** The head of a plain descriptor whose hosts are joined. */
  lemma PlainHead(f: Descriptor, f1: Descriptor, cfg: Config)
    requires Plain(f)
    requires Agree(f1, f, "playbook") && Agree(f1, f, "tags")
    requires Has(f1, "hosts") && Get(f1, "hosts") == (if Get(f, "hosts").List? then Str(HostsText(Get(f, "hosts"))) else Get(f, "hosts"))
    ensures Head(f1, cfg) == Ok(Bin(cfg) + " " + Get(f, "playbook").s + TagsText(f) + LimitText(f))
  {
    assert TagsOption(f1) == Ok(TagsText(f));
    assert LimitOption(f1) == Ok(LimitText(f));
  }

  /** `-C` or `-D` on plain arguments. */
  lemma PlainFlag(f: Descriptor, flag: string, on: bool)
    requires Has(f, "args") && Get(f, "args").List?
    ensures FlagAdded(f, flag, on) == Ok(Put(f, "args", List(WithFlag(Get(f, "args").items, flag, on))))
  {
    if !(on && Str(flag) !in Get(f, "args").items) {
      PutSame(f, "args");
    }
  }

  /** The tail of `_configure` when both flags are handled and the
      arguments join. */
  lemma WithArgsStages(f: Dict<Value>, cfg: Config, head: string, f2: Dict<Value>, f3: Dict<Value>, args: string)
    requires Has(f, "args") && FlagAdded(f, "-C", cfg.ansibleDryRun) == Ok(f2)
    requires FlagAdded(f2, "-D", cfg.ansibleDebug) == Ok(f3) && Joined(Get(f3, "args"), ' ') == Ok(args)
    ensures WithArgs(f, cfg, head) == Configuring(Put(f3, "cmd", Str(head + " " + args)), None)
  {
  }

  /** The tail of `_configure` on plain arguments. */
  lemma PlainWithArgs(f1: Descriptor, cfg: Config, head: string)
    requires Has(f1, "args") && Get(f1, "args").List? && AllStr(Get(f1, "args").items)
    ensures var args := ArgsAfter(Get(f1, "args").items, cfg);
      WithArgs(f1, cfg, head)
      == Configuring(Put(Put(f1, "args", List(args)), "cmd", Str(head + " " + Join(Strings(args), ' '))), None)
  {
    var xs := Get(f1, "args").items;
    var ys := WithFlag(xs, "-C", cfg.ansibleDryRun);
    PlainFlag(f1, "-C", cfg.ansibleDryRun);
    var f2 := Put(f1, "args", List(ys));
    GetPut(f1, "args", List(ys), "args");
    PlainFlag(f2, "-D", cfg.ansibleDebug);
    var zs := WithFlag(ys, "-D", cfg.ansibleDebug);
    PutPut(f1, "args", List(ys), List(zs));
    var f3 := Put(f1, "args", List(zs));
    GetPut(f1, "args", List(zs), "args");
    assert Joined(Get(f3, "args"), ' ') == Ok(Join(Strings(zs), ' '));
    WithArgsStages(f1, cfg, head, f2, f3, Join(Strings(zs), ' '));
  }

  /** `_configure` on a plain descriptor never raises, and leaves exactly the
      closed-form fields: the hosts joined with `:`, `-C` and `-D` appended
      when asked for and missing, and `cmd` the command above. */
  lemma {:induction false} PlainConfigured(f: Descriptor, cfg: Config)
    requires Plain(f)
    ensures Configured(f, cfg) == Configuring(PlainFields(f, cfg), None)
  {
    PlainHostsJoined(f);
    var h := Get(f, "hosts");
    var f1 := HostsJoined(f).value;
    HostsJoinedFacts(f, "playbook");
    HostsJoinedFacts(f, "tags");
    HostsJoinedFacts(f, "args");
    if h.List? {
      GetPut(f, "hosts", Str(HostsText(h)), "hosts");
    }
    PlainHead(f, f1, cfg);
    PlainWithArgs(f1, cfg, Head(f1, cfg).value);
  }

  /** The command `_configure` stores for a plain descriptor. */
  lemma PlainCmdStored(f: Descriptor, cfg: Config)
    requires Plain(f)
    ensures var c := Configured(f, cfg);
      c.halt == None && Has(c.fields, "cmd") && Get(c.fields, "cmd") == Str(PlainCmd(f, cfg))
  {
    PlainConfigured(f, cfg);
    var h := Get(f, "hosts");
    var f1 := if h.List? then Put(f, "hosts", Str(HostsText(h))) else f;
    var f2 := Put(f1, "args", List(ArgsAfter(Get(f, "args").items, cfg)));
    GetPut(f2, "cmd", Str(PlainCmd(f, cfg)), "cmd");
  }

  /** The task of the `DeploymentGroups` docstring example. */
  function DocstringTask(): Descriptor {
    [("dg", Str("domain.ru_year")), ("tags", List([Str("nginx_ssl_conf")])),
     ("args", List([Str("-e 'dg=\"domain.ru_year\"'")])),
     ("hosts", List([Str("host-*.domain.ru")])),
     ("playbook", Str("/home/user/ansible/nginx/nginx.yml"))]
  }

  /** The default binary, and neither `-C` nor `-D`. */
  function DefaultConfig(): Config {
    Config([], [], "", false, "", false, false, false, false)
  }

  lemma DocstringTaskShape()
    ensures var f := DocstringTask();
      Has(f, "tags") && Get(f, "tags") == List([Str("nginx_ssl_conf")])
      && Has(f, "args") && Get(f, "args") == List([Str("-e 'dg=\"domain.ru_year\"'")])
      && Has(f, "hosts") && Get(f, "hosts") == List([Str("host-*.domain.ru")])
      && Has(f, "playbook") && Get(f, "playbook") == Str("/home/user/ansible/nginx/nginx.yml")
  {
    assert Keys(DocstringTask()) == ["dg", "tags", "args", "hosts", "playbook"];
  }

  /** The options of a descriptor with one tag, one host pattern and one
      argument. */
  lemma SingletonParts(f: Descriptor, tag: string, host: string, arg: string, playbook: string, cfg: Config)
    requires Has(f, "tags") && Get(f, "tags") == List([Str(tag)])
    requires Has(f, "args") && Get(f, "args") == List([Str(arg)])
    requires Has(f, "hosts") && Get(f, "hosts") == List([Str(host)]) && host != ""
    requires Has(f, "playbook") && Get(f, "playbook") == Str(playbook)
    requires !cfg.ansibleDryRun && !cfg.ansibleDebug
    ensures Plain(f)
    ensures TagsText(f) == " -t '" + tag + "'"
    ensures LimitText(f) == " -l \"" + host + "\""
    ensures Strings(ArgsAfter(Get(f, "args").items, cfg)) == [arg]
  {
    assert Strings([Str(tag)]) == [tag];
    assert Strings([Str(host)]) == [host];
    assert Strings([Str(arg)]) == [arg];
  }

  /** A plain descriptor with one tag, one host pattern and one argument,
      configured without `-C` and `-D`. */
  lemma SingletonCommand(f: Descriptor, tag: string, host: string, arg: string, playbook: string, cfg: Config)
    requires Has(f, "tags") && Get(f, "tags") == List([Str(tag)])
    requires Has(f, "args") && Get(f, "args") == List([Str(arg)])
    requires Has(f, "hosts") && Get(f, "hosts") == List([Str(host)]) && host != ""
    requires Has(f, "playbook") && Get(f, "playbook") == Str(playbook)
    requires !cfg.ansibleDryRun && !cfg.ansibleDebug
    ensures Plain(f)
    ensures PlainCmd(f, cfg) == Bin(cfg) + " " + playbook + " -t '" + tag + "'" + " -l \"" + host + "\"" + " " + arg
  {
    SingletonParts(f, tag, host, arg, playbook, cfg);
    var args := Strings(ArgsAfter(Get(f, "args").items, cfg));
    assert Join(args, ' ') == arg;
    assert PlainCmd(f, cfg) == Bin(cfg) + " " + playbook + TagsText(f) + LimitText(f) + " " + arg;
  }

  /** The docstring example, configured with the default binary and neither
      `-C` nor `-D`, renders this command; the vars-file flag that discovery
      put into `args` comes last. */
  lemma DocstringCommand()
    ensures var c := Configured(DocstringTask(), DefaultConfig());
      c.halt == None && Has(c.fields, "cmd")
      && Get(c.fields, "cmd") == Str("/usr/bin/ansible-playbook" + " " + "/home/user/ansible/nginx/nginx.yml"
                                     + " -t '" + "nginx_ssl_conf" + "'" + " -l \"" + "host-*.domain.ru" + "\""
                                     + " " + "-e 'dg=\"domain.ru_year\"'")
  {
    DocstringTaskShape();
    PlainCmdStored(DocstringTask(), DefaultConfig());
    SingletonCommand(DocstringTask(), "nginx_ssl_conf", "host-*.domain.ru", "-e 'dg=\"domain.ru_year\"'",
                     "/home/user/ansible/nginx/nginx.yml", DefaultConfig());
  }

  // ---------------------------------------------------------------------------
  // Task.run (deployment.py:132-156)
  // ---------------------------------------------------------------------------

  /** A task whose `_configure` completed always has a command: `run` never
      takes the exit for a missing `cmd`, and spawns the command, or only
      logs it in dry-run mode. */
  lemma ConfiguredRuns(f: Descriptor, cfg: Config, env: Dict<string>)
    requires Configured(f, cfg).halt.None?
    ensures var c := Configured(f, cfg).fields;
      Has(c, "cmd") && Get(c, "cmd").Str?
      && TaskRun(c, cfg, env)
         == if cfg.dryRun then Ok(Previewed(Get(c, "cmd").s)) else Ok(Spawned(Get(c, "cmd").s, Sanitized(env, [])))
  {
    ConfiguredCommand(f, cfg);
    var c := Configured(f, cfg).fields;
    var prefix := Bin(cfg) + " " + Render(Get(f, "playbook")).value;
    assert StartsWith(prefix, Bin(cfg)) by {
      assert prefix[..|Bin(cfg)|] == Bin(cfg);
    }
    StartsWithTrans(Get(c, "cmd").s, prefix, Bin(cfg));
    CommandRuns(c, cfg, env);
  }

  /** A task with a non-empty string command spawns or previews it. */
  lemma CommandRuns(c: Dict<Value>, cfg: Config, env: Dict<string>)
    requires Has(c, "cmd") && Get(c, "cmd").Str? && StartsWith(Get(c, "cmd").s, Bin(cfg))
    ensures TaskRun(c, cfg, env)
            == if cfg.dryRun then Ok(Previewed(Get(c, "cmd").s)) else Ok(Spawned(Get(c, "cmd").s, Sanitized(env, [])))
  {
  }

  /** The `startswith('VIRTUALENVWRAPPER')` test adds nothing: such a name
      already contains `VIRTUALENV`. */
  lemma KeptIff(key: string)
    ensures Kept(key) <==> !Contains(key, "VIRTUALENV") && !Contains(key, "VIRTUAL_ENV")
  {
    if StartsWith(key, "VIRTUALENVWRAPPER") {
      StartsWithContains(key, "VIRTUALENVWRAPPER");
      ContainsPrefix(key, "VIRTUALENVWRAPPER", "VIRTUALENV");
    }
  }

  /** The variables of `env` that are kept, in their order. */
  function KeptPairs(env: Dict<string>): Dict<string>
    decreases |env|
  {
    if |env| == 0 then []
    else (if Kept(env[0].0) then [env[0]] else []) + KeptPairs(env[1..])
  }

  /** The kept variables are exactly those of `env` whose name is kept. */
  lemma {:induction false} KeptPairsMembers(env: Dict<string>, p: (string, string))
    ensures p in KeptPairs(env) <==> p in env && Kept(p.0)
    decreases |env|
  {
    if |env| > 0 {
      KeptPairsMembers(env[1..], p);
      assert p in env <==> p == env[0] || p in env[1..];
    }
  }

  /** After the first variable, the rest of `env` still has unique keys,
      none of them in the new accumulator. */
  lemma SanitizedStep(env: Dict<string>, acc: Dict<string>, acc': Dict<string>)
    requires |env| > 0 && UniqueKeys(env)
    requires forall i :: 0 <= i < |env| ==> !Has(acc, env[i].0)
    requires acc' == acc || acc' == acc + [env[0]]
    ensures UniqueKeys(env[1..])
    ensures forall i :: 0 <= i < |env[1..]| ==> !Has(acc', env[1..][i].0)
  {
    forall i | 0 <= i < |env| - 1
      ensures !Has(acc', env[1..][i].0)
    {
      assert env[1..][i] == env[i + 1] && env[i + 1].0 != env[0].0;
      if acc' != acc {
        assert Keys(acc') == Keys(acc) + [env[0].0];
      }
    }
    forall i, j | 0 <= i < j < |env| - 1
      ensures env[1..][i].0 != env[1..][j].0
    {
      assert env[1..][i] == env[i + 1] && env[1..][j] == env[j + 1];
    }
  }

  lemma AppendOne(acc: Dict<string>, x: (string, string), keep: bool, rest: Dict<string>)
    ensures (if keep then acc + [x] else acc) + rest == acc + ((if keep then [x] else []) + rest)
  {
    if keep {
      assert acc + [x] + rest == acc + ([x] + rest);
    } else {
      assert [] + rest == rest;
    }
  }

  lemma {:induction false} SanitizedAppends(env: Dict<string>, acc: Dict<string>)
    requires UniqueKeys(env)
    requires forall i :: 0 <= i < |env| ==> !Has(acc, env[i].0)
    ensures Sanitized(env, acc) == acc + KeptPairs(env)
    decreases |env|
  {
    if |env| > 0 {
      var keep := Kept(env[0].0);
      PutNew(acc, env[0].0, env[0].1);
      var acc' := if keep then acc + [env[0]] else acc;
      assert Sanitized(env, acc) == Sanitized(env[1..], acc');
      SanitizedStep(env, acc, acc');
      SanitizedAppends(env[1..], acc');
      AppendOne(acc, env[0], keep, KeptPairs(env[1..]));
    }
  }

  /** The environment a playbook is spawned with is the process environment
      with every virtualenv variable removed, in the original order. */
  lemma SanitizedKeeps(env: Dict<string>)
    requires UniqueKeys(env)
    ensures Sanitized(env, []) == KeptPairs(env)
  {
    SanitizedAppends(env, []);
    assert [] + KeptPairs(env) == KeptPairs(env);
  }

  // ---------------------------------------------------------------------------
  // DeploymentGroups._create_task_objects (deployment.py:37-40)
  // ---------------------------------------------------------------------------

  /** A task list wraps when every descriptor configures, each into its own
      fields. */
  lemma {:induction false} ConfiguredListAt(ds: seq<Descriptor>, cfg: Config)
    ensures var r := ConfiguredList(ds, cfg);
      (r.Ok? <==> forall k :: 0 <= k < |ds| ==> Configured(ds[k], cfg).halt.None?)
      && (r.Ok? ==> forall k :: 0 <= k < |ds| ==> r.value[k] == Configured(ds[k], cfg).fields)
    decreases |ds|
  {
    if |ds| > 0 {
      var r := ConfiguredList(ds, cfg);
      var c := Configured(ds[0], cfg);
      var rest := ConfiguredList(ds[1..], cfg);
      ConfiguredListAt(ds[1..], cfg);
      assert r == if c.halt.Some? then Err(c.halt.value) else Prefixed([c.fields], rest);
      if c.halt.None? && rest.Ok? {
        forall k | 0 <= k < |ds|
          ensures Configured(ds[k], cfg).halt.None? && r.value[k] == Configured(ds[k], cfg).fields
        {
          if k > 0 {
            assert ds[1..][k - 1] == ds[k];
          }
        }
      } else if c.halt.None? {
        var k :| 0 <= k < |ds| - 1 && Configured(ds[1..][k], cfg).halt.Some?;
        assert ds[1..][k] == ds[k + 1];
      }
    }
  }

  /** A task list that does not wrap halts as its first descriptor that
      raises. */
  lemma {:induction false} ConfiguredListHalt(ds: seq<Descriptor>, cfg: Config)
    requires ConfiguredList(ds, cfg).Err?
    ensures exists k :: 0 <= k < |ds| && Configured(ds[k], cfg).halt == Some(ConfiguredList(ds, cfg).halt)
                        && forall j :: 0 <= j < k ==> Configured(ds[j], cfg).halt.None?
    decreases |ds|
  {
    var h := ConfiguredList(ds, cfg).halt;
    var c := Configured(ds[0], cfg);
    ConfiguredListStep(ds, 0, cfg, c);
    assert ds[0..] == ds;
    if c.halt.None? {
      assert ConfiguredList(ds[1..], cfg) == Err(h);
      ConfiguredListHalt(ds[1..], cfg);
      var k :| 0 <= k < |ds| - 1 && Configured(ds[1..][k], cfg).halt == Some(h)
               && forall j :: 0 <= j < k ==> Configured(ds[1..][j], cfg).halt.None?;
      HaltShifted(ds, cfg, k, h);
    } else {
      assert Configured(ds[0], cfg).halt == Some(h);
    }
  }

  // Helper for ConfiguredListHalt: the first failing descriptor of `ds[1..]`,
  // read as a position of `ds`.
  lemma HaltShifted(ds: seq<Descriptor>, cfg: Config, k: int, h: Halt)
    requires 0 <= k < |ds| - 1 && Configured(ds[0], cfg).halt.None?
    requires Configured(ds[1..][k], cfg).halt == Some(h)
    requires forall j :: 0 <= j < k ==> Configured(ds[1..][j], cfg).halt.None?
    ensures Configured(ds[k + 1], cfg).halt == Some(h)
    ensures forall j :: 0 <= j < k + 1 ==> Configured(ds[j], cfg).halt.None?
  {
    assert ds[1..][k] == ds[k + 1];
    forall j | 0 <= j < k + 1
      ensures Configured(ds[j], cfg).halt.None?
    {
      if j > 0 {
        assert ds[1..][j - 1] == ds[j];
      }
    }
  }

  /** The task names of a group keep their order; each list wraps as above. */
  lemma {:induction false} ConfiguredTasksAt(d: Dict<seq<Descriptor>>, cfg: Config)
    ensures var r := ConfiguredTasks(d, cfg);
      (r.Ok? <==> forall j :: 0 <= j < |d| ==> ConfiguredList(d[j].1, cfg).Ok?)
      && (r.Ok? ==> |r.value| == |d| && forall j :: 0 <= j < |d| ==> r.value[j] == (d[j].0, ConfiguredList(d[j].1, cfg).value))
    decreases |d|
  {
    if |d| > 0 {
      ConfiguredTasksAt(d[1..], cfg);
      assert forall j :: 0 < j < |d| ==> d[1..][j - 1] == d[j];
    }
  }

  /** The groups keep their order; each group wraps as above. */
  lemma {:induction false} ConfiguredAllAt(a: Aggregate, cfg: Config)
    ensures var r := ConfiguredAll(a, cfg);
      (r.Ok? <==> forall i :: 0 <= i < |a| ==> ConfiguredTasks(a[i].1, cfg).Ok?)
      && (r.Ok? ==> |r.value| == |a| && forall i :: 0 <= i < |a| ==> r.value[i] == (a[i].0, ConfiguredTasks(a[i].1, cfg).value))
    decreases |a|
  {
    if |a| > 0 {
      ConfiguredAllAt(a[1..], cfg);
      assert forall i :: 0 < i < |a| ==> a[1..][i - 1] == a[i];
    }
  }

  /** Looking a group up in the wrapped aggregate finds its wrapped tasks. */
  lemma {:induction false} ConfiguredAllGet(a: Aggregate, cfg: Config, group: string)
    requires ConfiguredAll(a, cfg).Ok?
    ensures Has(ConfiguredAll(a, cfg).value, group) <==> Has(a, group)
    ensures Has(a, group) ==>
              ConfiguredTasks(Get(a, group), cfg).Ok?
              && Get(ConfiguredAll(a, cfg).value, group) == ConfiguredTasks(Get(a, group), cfg).value
    decreases |a|
  {
    if |a| > 0 && a[0].0 != group {
      ConfiguredAllGet(a[1..], cfg, group);
    }
  }

  /** Looking a task name up in a wrapped group finds its wrapped list. */
  lemma {:induction false} ConfiguredTasksGet(d: Dict<seq<Descriptor>>, cfg: Config, dt: string)
    requires ConfiguredTasks(d, cfg).Ok?
    ensures Has(ConfiguredTasks(d, cfg).value, dt) <==> Has(d, dt)
    ensures Has(d, dt) ==>
              ConfiguredList(Get(d, dt), cfg).Ok?
              && Get(ConfiguredTasks(d, cfg).value, dt) == ConfiguredList(Get(d, dt), cfg).value
    decreases |d|
  {
    if |d| > 0 && d[0].0 != dt {
      ConfiguredTasksGet(d[1..], cfg, dt);
    }
  }

  // ---------------------------------------------------------------------------
  // DeploymentGroups.run (deployment.py:71-89)
  // ---------------------------------------------------------------------------

  /** Running a list runs its tasks in order: each effect is its task's, the
      run stops at the first task that halts, with that task's halt, and
      otherwise every task runs. */
  lemma {:induction false} RanAllOutcome(fs: seq<Descriptor>, cfg: Config, env: Dict<string>)
    ensures var (effects, halt) := RanAll(fs, cfg, env);
      |effects| <= |fs|
      && (forall k :: 0 <= k < |effects| ==> TaskRun(fs[k], cfg, env) == Ok(effects[k]))
      && (halt.None? <==> |effects| == |fs|)
      && (halt.Some? ==> TaskRun(fs[|effects|], cfg, env) == Err(halt.value))
    decreases |fs|
  {
    if |fs| > 0 {
      RanAllOutcome(fs[1..], cfg, env);
      assert forall k :: 0 < k < |fs| ==> fs[1..][k - 1] == fs[k];
    }
  }

  /** `run(group, dt)` on a successfully wrapped aggregate: an unknown group
      or task name exits with 1, or with 0 when `skip_dg_notfound` is set;
      otherwise every task of the list runs, none of them exits for a
      missing command, and each spawns or previews its configured command. */
  lemma {:induction false} WrappedGroupRuns(raw: Aggregate, cfg: Config, group: string, dt: string, env: Dict<string>)
    requires ConfiguredAll(raw, cfg).Ok?
    ensures var a := ConfiguredAll(raw, cfg).value;
      !Has(raw, group) ==> GroupRun(a, cfg, group, dt, env) == ([], Some(NotFound(cfg)))
    ensures var a := ConfiguredAll(raw, cfg).value;
      Has(raw, group) && !Has(Get(raw, group), dt) ==> GroupRun(a, cfg, group, dt, env) == ([], Some(NotFound(cfg)))
    ensures var a := ConfiguredAll(raw, cfg).value;
      Has(raw, group) && Has(Get(raw, group), dt) ==>
        var ds := Get(Get(raw, group), dt);
        var (effects, halt) := GroupRun(a, cfg, group, dt, env);
        halt.None? && |effects| == |ds|
        && forall k :: 0 <= k < |ds| ==> Ok(effects[k]) == TaskRun(Configured(ds[k], cfg).fields, cfg, env)
  {
    ConfiguredAllGet(raw, cfg, group);
    if Has(raw, group) {
      ConfiguredTasksGet(Get(raw, group), cfg, dt);
      if Has(Get(raw, group), dt) {
        var ds := Get(Get(raw, group), dt);
        var fs := ConfiguredList(ds, cfg).value;
        ConfiguredListAt(ds, cfg);
        RanAllOutcome(fs, cfg, env);
        var (effects, halt) := RanAll(fs, cfg, env);
        if halt.Some? {
          var k := |effects|;
          ConfiguredRuns(ds[k], cfg, env);
          assert false;
        }
      }
    }
  }

  // ---------------------------------------------------------------------------
  // DeploymentGroups.show_dg and show_tags (deployment.py:45-68)
  // ---------------------------------------------------------------------------

  /** A task whose playbook this model does not render: Python's `str()` of
      a list or a dict, which the model leaves out. */
  predicate BadPlaybook(f: Descriptor) {
    Has(f, "playbook") && Render(Get(f, "playbook")).Err?
  }

  // Helpers for ShowDgRenders: one level of the listing each.
  lemma {:induction false} PlaybookLinesOk(fs: seq<Descriptor>)
    ensures PlaybookLines(fs).Ok? <==> forall k :: 0 <= k < |fs| ==> !BadPlaybook(fs[k])
    decreases |fs|
  {
    if |fs| > 0 {
      PlaybookLinesOk(fs[1..]);
      assert forall k :: 0 < k < |fs| ==> fs[1..][k - 1] == fs[k];
    }
  }

  lemma {:induction false} TaskLinesOk(d: Dict<seq<Descriptor>>)
    ensures TaskLines(d).Ok? <==> forall j :: 0 <= j < |d| ==> PlaybookLines(d[j].1).Ok?
    decreases |d|
  {
    if |d| > 0 {
      TaskLinesOk(d[1..]);
      assert forall j :: 0 < j < |d| ==> d[1..][j - 1] == d[j];
    }
  }

  lemma {:induction false} GroupLinesOk(a: Aggregate)
    ensures GroupLines(a).Ok? <==> forall i :: 0 <= i < |a| ==> TaskLines(a[i].1).Ok?
    decreases |a|
  {
    if |a| > 0 {
      GroupLinesOk(a[1..]);
      assert forall i :: 0 < i < |a| ==> a[1..][i - 1] == a[i];
    }
  }

  /** Where the model of `show_dg` stops: it renders the listing exactly when
      no playbook it meets is a list or a dict. Every descriptor discovery
      keeps has a string playbook (`DiscoveryFacts.ResolvedPlaybook`). */
  lemma ShowDgRenders(a: Aggregate)
    ensures GroupLines(a).Ok? <==>
              forall i, j, k :: 0 <= i < |a| && 0 <= j < |a[i].1| && 0 <= k < |a[i].1[j].1| ==>
                !BadPlaybook(a[i].1[j].1[k])
  {
    GroupLinesOk(a);
    forall i | 0 <= i < |a|
      ensures TaskLines(a[i].1).Ok? <==>
                forall j, k :: 0 <= j < |a[i].1| && 0 <= k < |a[i].1[j].1| ==> !BadPlaybook(a[i].1[j].1[k])
    {
      TaskLinesOk(a[i].1);
      forall j | 0 <= j < |a[i].1|
        ensures PlaybookLines(a[i].1[j].1).Ok? <==> forall k :: 0 <= k < |a[i].1[j].1| ==> !BadPlaybook(a[i].1[j].1[k])
      {
        PlaybookLinesOk(a[i].1[j].1);
      }
    }
  }

  /** A line printed under a group: it starts with a space. */
  predicate Indented(line: string) {
    |line| > 0 && line[0] == ' '
  }

  /** The lines that do not start with a space, in order. */
  function Unindented(lines: seq<string>): seq<string>
    decreases |lines|
  {
    if |lines| == 0 then []
    else (if Indented(lines[0]) then [] else [lines[0]]) + Unindented(lines[1..])
  }

  lemma {:induction false} UnindentedConcat(x: seq<string>, y: seq<string>)
    ensures Unindented(x + y) == Unindented(x) + Unindented(y)
    decreases |x|
  {
    if |x| > 0 {
      assert (x + y)[0] == x[0] && (x + y)[1..] == x[1..] + y;
      UnindentedConcat(x[1..], y);
    } else {
      assert x + y == y;
    }
  }

  lemma {:induction false} PlaybookLinesIndented(fs: seq<Descriptor>)
    requires PlaybookLines(fs).Ok?
    ensures Unindented(PlaybookLines(fs).value) == []
    decreases |fs|
  {
    if |fs| > 0 {
      PlaybookLinesIndented(fs[1..]);
      if Has(fs[0], "playbook") {
        var line := "    - " + Render(Get(fs[0], "playbook")).value;
        UnindentedConcat([line], PlaybookLines(fs[1..]).value);
      }
    }
  }

  lemma {:induction false} TaskLinesIndented(d: Dict<seq<Descriptor>>)
    requires TaskLines(d).Ok?
    ensures Unindented(TaskLines(d).value) == []
    decreases |d|
  {
    if |d| > 0 {
      TaskLinesIndented(d[1..]);
      PlaybookLinesIndented(d[0].1);
      var playbooks := PlaybookLines(d[0].1).value;
      UnindentedConcat(["  " + d[0].0] + playbooks, TaskLines(d[1..]).value);
      UnindentedConcat(["  " + d[0].0], playbooks);
    }
  }

  /** Read back, the lines of `show_dg` that do not start with a space are
      the group names, in order, provided no group name starts with one. */
  lemma {:induction false} ShowDgGroups(a: Aggregate)
    requires GroupLines(a).Ok?
    requires forall i :: 0 <= i < |a| ==> !Indented(a[i].0)
    ensures Unindented(GroupLines(a).value) == Keys(a)
    decreases |a|
  {
    if |a| > 0 {
      assert forall i :: 0 < i < |a| ==> a[1..][i - 1] == a[i];
      ShowDgGroups(a[1..]);
      TaskLinesIndented(a[0].1);
      var tasks := TaskLines(a[0].1).value;
      UnindentedConcat([a[0].0] + tasks, GroupLines(a[1..]).value);
      UnindentedConcat([a[0].0], tasks);
      assert Unindented([a[0].0]) == [a[0].0];
    }
  }

  /** Read back, the text of `show_tags` splits into one `- <task>` line per
      configured deployment task, in order, then the empty text after the
      last newline. */
  lemma TagListing(tasks: seq<string>)
    requires forall i :: 0 <= i < |tasks| ==> '\n' !in tasks[i]
    ensures var parts := Split(Unlines(TagLines(tasks)), '\n');
      |parts| == |tasks| + 1 && parts[|tasks|] == ""
      && forall i :: 0 <= i < |tasks| ==> parts[i] == "- " + tasks[i]
  {
    var lines := TagLines(tasks);
    forall i | 0 <= i < |lines|
      ensures '\n' !in lines[i]
    {
      assert lines[i] == "- " + tasks[i];
    }
    SplitUnlines(lines);
  }
}

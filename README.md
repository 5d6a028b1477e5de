# gron: discovery and deployment core in Dafny

gron is a wrapper around `ansible-playbook`. It scans a tree of YAML
playbooks for inventory entries whose `vars` name *deployment tasks*
(such as `_deploy_cert`). Each task lists *descriptors*: a deployment
group `dg`, tags, args and extra keys. gron files every descriptor under
its group and task name. On request it renders the `ansible-playbook`
command for a group and task and spawns it.

This project models the two files that do this work and proves what they
promise:

- `discovery.py`:
  - the relevance test `_is_gron_file`;
  - `read_yaml`, as a lookup in a file map plus a parse oracle;
  - the entry loop of `_find_deployment_groups`, with its vars-file path
    resolution and `dict.update`;
  - `_parse_hosts_vars`: capture, the fatal task without data, file-wide
    groups, descriptor assembly, validation and the `-e` flags;
  - the additive merge `_update_deployment_groups`.
- `deployment.py`:
  - `Task._configure`, which renders the command, and `Task.run`, which
    filters the environment and spawns or previews the command;
  - the `DeploymentGroups` wrapper, with `_create_task_objects`, `run`,
    `show_dg` and `show_tags`.

Modules:

| file | module | contents |
|---|---|---|
| `text.dfy` | `Text` | Python's `split`, `join`, `in` and `startswith` on strings; the newline-terminated listings |
| `dicts.dfy` | `Dicts` | insertion-ordered `dict` with string keys, as a sequence of pairs |
| `yaml.dfy` | `Yaml` | parsed YAML values; Python truthiness, `in`, iteration, `str()`, `+=` and `update`; `Halt` and `Result` |
| `settings.dfy` | `Settings` | the run configuration |
| `discovery.dfy` | `Discovery` | each Python function of discovery.py as a method, proved equal to a functional definition |
| `discovery_facts.dfy` | `DiscoveryFacts` | the properties of those definitions |
| `deployment.dfy` | `Deployment` | `Task` and `DeploymentGroups` as classes whose methods change their fields, proved against functional definitions |
| `deployment_facts.dfy` | `DeploymentFacts` | the properties of those definitions |

`sys.exit(status)` and `raise Exception(message)` become the `Exit` and
`Raised` variants of `Halt`. A run that ends that way is an `Err` result.
The TypeError, KeyError and AttributeError that Python raises on
ill-shaped data become `PythonError`. Behaviour this model does not
describe becomes `Unsupported`: Python's `str()` of a list or dict, and a
group name that is not a string.

### Notes on the code

- The tags check at discovery.py:175 drops only a descriptor without a
  `tags` key (and without task-global tags or `notags`). A descriptor
  whose `tags` is an empty list passes. The second test on that line
  never decides (`Discovery.Validated`, `DiscoveryFacts.ResolvedOutcome`).
- Every descriptor gets an `args` list (discovery.py:151-152), and every
  non-structural key, `dg` among them, becomes an `-e` flag in it. So a
  rendered command always goes on after its `-t` and `-l` options with a space and
  its arguments, `-e 'dg="…"'` among them, as the docstring at
  deployment.py:24 shows
  (`DeploymentFacts.DocstringCommand`).

## Model

| member | source | states |
|---|---|---|
| Discovery.AnyOccurs | discovery.py:234-237 | the loop returns true exactly when some string of the list occurs in the text |
| Discovery.IsGronFile | discovery.py:232-237 | a file is relevant iff some configured deployment task name, or the literal `_vars_files`, occurs in its text as a substring |
| Yaml.PutAllGet | discovery.py:79 | after `vars.update(e)`, every key of `e` reads its value from `e`; every other key keeps its old value |
| Discovery.ExtraVarFlag | discovery.py:184-187 | whichever branch is taken, the flag is the single-quoted `-e 'key="value"'`; the double-quoted branch is unreachable |
| Discovery.ValidatedNamed | discovery.py:170-179 | a descriptor that passes validation has a `dg` key holding a group name |
| Discovery.Resolved | discovery.py:149-189 | one pass of the descriptor loop keeps only descriptors that name their group |
| Discovery.ResolvedAll | discovery.py:149-189 | every descriptor the loop keeps names its group |
| Discovery.TaskParsed | discovery.py:123-189 | one task's pass leaves every kept descriptor naming its group |
| Discovery.Declared | discovery.py:134-189 | a task's declared descriptors, once appended, all name their group |
| Discovery.Appended | discovery.py:149-189 | appending the kept descriptors to `result[dt]` keeps every descriptor named |
| Discovery.TasksParsed | discovery.py:123-189 | the task loop returns only descriptors that name their group |
| Discovery.HostsVarsParsed | discovery.py:92-190 | `_parse_hosts_vars` returns only descriptors that can be filed under a group |
| Discovery.AddExtraVars | discovery.py:181-187 | the in-place loop computes the descriptor with its `-e` flags appended; `DiscoveryFacts.ExtraVarsAppendFlags` characterises it |
| Discovery.PrepareArgs | discovery.py:151-155 | the copy gets `args` (created empty if missing) extended with the command-line environment; `DiscoveryFacts.ArgsPreparedFields` characterises it |
| Discovery.Place | discovery.py:156-163 | the copy's `hosts` and `playbook` set in the source's order; `DiscoveryFacts.PlacedFields` characterises it |
| Discovery.AddGlobals | discovery.py:164-169 | the task-global args and tags appended in place; `DiscoveryFacts.GlobalsAddedFields` characterises it |
| Discovery.ResolveDescriptor | discovery.py:149-189 | one pass of the descriptor loop (deep copy, assembly, validation, flags); `DiscoveryFacts.ResolvedOutcome` gives its outcome in closed form |
| Discovery.Validate | discovery.py:170-187 | validation and the `-e` loop on an assembled descriptor; `DiscoveryFacts.ValidatedOutcome` gives its outcome in closed form |
| Discovery.AppendResolved | discovery.py:149-189 | the loop appends to `result[dt]` exactly the descriptors each pass keeps, stopping at the first halt |
| Discovery.ParseTask | discovery.py:123-189 | one pass of the task loop, equal to `TaskParsed`: the fatal check for missing data, then `result[dt]` created; `DiscoveryFacts.TaskWithoutGroups` and `TaskIgnoresOwnGroups` state the file-wide group rule for it |
| Discovery.ParseDeclared | discovery.py:134-189 | the rest of one pass, equal to `Declared`: a task without declared or file-wide groups adds nothing more, and `DiscoveryFacts.FileWideGroupsUsed` shows a truthy file-wide list replaces the task's own |
| Discovery.ParseHostsVars | discovery.py:92-190 | `_parse_hosts_vars` as written: list-valued vars give nothing, tasks are captured in configuration order, then parsed one by one |
| Discovery.CaptureTasks | discovery.py:118-120 | the loop captures the (task, metadata) pairs that `DiscoveryFacts.CapturedExactly` and `DiscoveryFacts.CapturedIff` describe: exactly the configured tasks `vars` holds, in configuration order |
| Discovery.ParseCaptured | discovery.py:123-189 | the task loop over the captured pairs, from an empty result |
| Discovery.MergeOne | discovery.py:197-202 | the missing group and task levels are created, then the descriptor is appended; `DiscoveryFacts.MergedOneLookup` characterises it |
| Discovery.MergeList | discovery.py:196-202 | the inner merge loop over one task's descriptors |
| Discovery.UpdateDeploymentGroups | discovery.py:192-203 | the merge as written; `DiscoveryFacts.MergedLookup`, `MergedTotal` and `MergedConsistent` characterise it |
| Discovery.MergeVarsFiles | discovery.py:72-79 | each vars file is read from its resolved path and merged into `vars` with `update`, in order |
| Discovery.ProcessEntry | discovery.py:65-89 | one inventory entry: the filter, the vars files, the recheck of `vars`, the parse and the merge |
| Discovery.FindDeploymentGroups | discovery.py:36-90 | `_find_deployment_groups` over the listed files, from an empty aggregate |
| DiscoveryFacts.VarsFilePathResolves | discovery.py:74-78 | an absolute vars file is used unchanged; a relative one is looked up in the playbook's directory; with no directory in the playbook path it stays as it is |
| DiscoveryFacts.SkippedEntriesInert | discovery.py:65-81 | entries that are not dicts, lack `vars`, have falsy `vars` or lack `hosts` change neither the aggregate nor the halt |
| DiscoveryFacts.CapturedHas | discovery.py:118-120 | every configured task name present in `vars` is captured with its metadata |
| DiscoveryFacts.PresentIff | discovery.py:118-119 | a task is among those the loop looks for and finds iff it is configured and `vars` holds it |
| DiscoveryFacts.CapturedExactly | discovery.py:118-120 | the captured pairs are exactly the configured tasks that `vars` holds, one per occurrence, in configuration order, each with its own metadata |
| DiscoveryFacts.CapturedIff | discovery.py:118-120 | a pair is captured iff its task is configured and held by `vars` and the pair carries that task's metadata |
| DiscoveryFacts.CapturedFirst | discovery.py:118-120 | the first captured task is the first configured task that `vars` holds |
| DiscoveryFacts.CapturedPrefix | discovery.py:118-120 | capturing only appends: earlier captures stay in front |
| DiscoveryFacts.TasksParsedFatal | discovery.py:123-131 | a captured task with falsy metadata makes the parse end with a halt |
| DiscoveryFacts.TaskWithoutGroups | discovery.py:132-137 | a task that declares no `deployment_groups`, in a file without a truthy `_deployment_groups`, adds only an empty `result[dt]` (or leaves an existing one); falsy data still halts |
| DiscoveryFacts.FileWideGroupsUsed | discovery.py:132-149 | with a truthy file-wide list, the task's descriptors are those of the file-wide list, resolved against the task's metadata with that list in place of its own; its args and tags stay the task's own |
| DiscoveryFacts.TaskIgnoresOwnGroups | discovery.py:123-189 | with a truthy file-wide list, one task's pass does not depend on the task's own `deployment_groups` |
| DiscoveryFacts.TasksIgnoreOwnGroups | discovery.py:123-189 | with a truthy file-wide list, the task loop does not depend on any task's own `deployment_groups` |
| DiscoveryFacts.FileWideGroupsPrevail | discovery.py:113-190 | `_parse_hosts_vars` with a truthy `_deployment_groups`: vars whose tasks differ only in their own `deployment_groups` give the same result |
| DiscoveryFacts.ResolvedPlaybook | discovery.py:149-189 | a descriptor the pass keeps has the source file, as a string, in `playbook` |
| DiscoveryFacts.NoDataIsFatal | discovery.py:123-131 | falsy data under a recognised task is never skipped; for the first such task the halt is `sys.exit(1)`, or in debug mode the raised message with task and file |
| DiscoveryFacts.DiscoveredPrefix | discovery.py:61-89 | scanning the files is scanning a prefix, then the rest from the aggregate it left |
| DiscoveryFacts.DiscoveryStopsAtHalt | discovery.py:61-89 | a file whose processing halts ends the whole scan with that halt |
| DiscoveryFacts.MergedOneLookup | discovery.py:197-202 | one append lands at the end of its own group and task, and changes no other list |
| DiscoveryFacts.MergedListLookup | discovery.py:196-202 | one task's merge appends, under each group, exactly that task's descriptors naming the group, in order |
| DiscoveryFacts.MergedLookup | discovery.py:192-203 | under every group and task the merge appends exactly the descriptors declared there, in order, after those already present; nothing is dropped or deduplicated |
| DiscoveryFacts.MergedListTotal | discovery.py:196-202 | one task's merge grows the aggregate by the length of its list |
| DiscoveryFacts.MergedTotal | discovery.py:192-203 | the merge grows the total number of descriptors by exactly the number it is given |
| DiscoveryFacts.MergedOneConsistent | discovery.py:197-202 | one append keeps every descriptor under the group its `dg` names |
| DiscoveryFacts.MergedListConsistent | discovery.py:196-202 | one task's merge keeps every descriptor under the group it names |
| DiscoveryFacts.MergedConsistent | discovery.py:192-203 | the merge files every descriptor under the group its `dg` names |
| DiscoveryFacts.RenderableCons | discovery.py:181-184 | every value that becomes a flag renders iff the first key's does (unless structural) and the rest's do |
| DiscoveryFacts.ExtraVarsAppendFlags | discovery.py:181-187 | the loop appends one `-e 'key="value"'` per non-structural key, in key order, when every such value renders; otherwise it fails |
| DiscoveryFacts.FlagsPut | discovery.py:151-169 | writing a structural key (args, tags, hosts, playbook) changes neither the flags nor whether they render |
| DiscoveryFacts.ResolvedAllKept | discovery.py:149-189 | the descriptor loop is a filter: dropped descriptors are skipped, later ones still processed, up to the first halt |
| DiscoveryFacts.ArgsPreparedFields | discovery.py:151-155 | `args` becomes the local args (or none) followed by the command-line environment; no other key changes |
| DiscoveryFacts.PlacedFields | discovery.py:156-163 | `hosts` is `limit` if set, else None under `nolimit`, else the entry's hosts; `playbook` is the source path; no other key changes |
| DiscoveryFacts.GlobalArgsFields | discovery.py:164-165 | the task-global args follow the args so far; no other key changes |
| DiscoveryFacts.GlobalTagsFields | discovery.py:166-169 | the task-global tags follow the local tags (or none); no other key changes |
| DiscoveryFacts.GlobalsAddedFields | discovery.py:164-169 | both global stages together, with no other key changed |
| DiscoveryFacts.AssembledFields | discovery.py:150-169 | a well-formed entry always assembles: args = local ++ environment ++ global args, tags = local ++ global tags, hosts and playbook as placed, every other key copied unchanged |
| DiscoveryFacts.ValidatedOutcome | discovery.py:170-187 | no `dg`, or no `tags` key without `notags`, drops the descriptor; otherwise it is kept with its flags appended to its args |
| DiscoveryFacts.ResolvedOutcome | discovery.py:149-189 | the whole pass in closed form: dropped exactly when `dg` is missing, or tags (local or global) and `notags` are all absent; otherwise args = local ++ environment ++ global args ++ flags |
| DiscoveryFacts.ValidatedFromEntry | discovery.py:170-187 | validation reads only `dg`, the presence of `tags` and the flags, all of which assembly fixes from the entry |
| Deployment.Bin | deployment.py:112-114 | the binary is never empty: `ansible_bin`, or `/usr/bin/ansible-playbook` when unset or empty |
| Deployment.FlagAdded | deployment.py:124-127 | after adding a flag that was asked for, the flag is in `args` |
| Deployment.Task.constructor | deployment.py:93-105 | the task's fields are the descriptor's and it keeps the configuration |
| Deployment.Task.Create | deployment.py:93-106 | a new task whose fields are those `_configure` leaves on the descriptor |
| Deployment.Task.Configure | deployment.py:108-130 | `_configure` in place: the new fields, and the halt if it raised, are those of `Configured`, whose command `DeploymentFacts.PlainConfigured` gives in closed form |
| Deployment.Task.RenderHead | deployment.py:109-122 | the head of the command: binary, playbook, then `-t` and `-l` when tags and hosts are truthy |
| Deployment.Task.AddFlag | deployment.py:124-127 | the flag is appended to `args` only when asked for and missing; nothing else changes |
| Deployment.Task.ConfigureArgs | deployment.py:123-130 | `-C` and `-D` added, the space-joined args appended after a space, and `cmd` stored |
| Deployment.Task.Run | deployment.py:132-156 | a falsy `cmd` exits with 1; otherwise the command is previewed in dry-run mode, or spawned with the filtered environment |
| Deployment.ConfiguredList | deployment.py:40 | wrapping a list of descriptors keeps its length |
| Deployment.ConfiguredTasks | deployment.py:39-40 | wrapping one group keeps its task names in order |
| Deployment.ConfiguredAll | deployment.py:37-40 | wrapping the aggregate keeps its group names in order |
| Deployment.TagLines | deployment.py:63-68 | one line per configured deployment task |
| Deployment.DeploymentGroups.constructor | deployment.py:33-34 | the wrapper holds the configuration and the given groups |
| Deployment.DeploymentGroups.Create | deployment.py:14-40 | a wrapper that fails to configure a task raises that task's halt; otherwise it holds fresh tasks whose fields are the wrapped aggregate |
| Deployment.DeploymentGroups.WrapGroup | deployment.py:39-40 | one group wrapped: it succeeds iff every task configures, keeps the task names, and each task's fields are its configured descriptor |
| Deployment.DeploymentGroups.WrapTasks | deployment.py:40 | one list wrapped: it succeeds iff every descriptor configures, keeps its length, and each task's fields are its configured descriptor |
| Deployment.DeploymentGroups.Run | deployment.py:71-89 | `run(group, dt)`: the lookup policy and the tasks' effects, as `DeploymentFacts.WrappedGroupRuns` describes them |
| Deployment.DeploymentGroups.RunTasks | deployment.py:88-89 | the tasks run in order up to the first halt, as `DeploymentFacts.RanAllOutcome` describes |
| Deployment.DeploymentGroups.ShowDg | deployment.py:45-61 | the listing of every group, task name and playbook; `DeploymentFacts.ShowDgGroups` reads it back and `DeploymentFacts.ShowDgRenders` says where the model's rendering stops |
| Deployment.DeploymentGroups.ShowTags | deployment.py:63-68 | one `- <task>` line per configured deployment task; `DeploymentFacts.TagListing` reads it back |
| Deployment.TasksText | deployment.py:56-60 | the lines under one group: each task name indented by two spaces, followed by its playbooks |
| Deployment.PlaybooksText | deployment.py:58-60 | a `    - <playbook>` line for every task that has a playbook |
| DeploymentFacts.HeadAgrees | deployment.py:109-122 | the head of the command reads only `playbook`, `tags` and `hosts` |
| DeploymentFacts.FlagAddedAgrees | deployment.py:124-127 | adding a flag touches nothing but `args`, and an argument already present stays |
| DeploymentFacts.HostsJoinedFacts | deployment.py:110-111 | after the join `hosts` is not a list, and no other key changes |
| DeploymentFacts.ConfiguredCommand | deployment.py:108-130 | a `_configure` that completes had `hosts` and a printable `playbook`, and stores a string `cmd` that starts with `<bin> <playbook>` |
| DeploymentFacts.WithArgsIdempotent | deployment.py:123-130 | the tail of `_configure` run again adds no flag and stores the same `cmd` |
| DeploymentFacts.ConfigureIdempotent | deployment.py:108-130 | running `_configure` a second time raises nothing and changes no field, so `cmd` and `args` stay the same |
| DeploymentFacts.PlainConfigured | deployment.py:108-130 | on a descriptor shaped as discovery makes it, `_configure` never raises and leaves `hosts` `:`-joined, `-C`/`-D` added once when asked for, and `cmd` = `<bin> <playbook>[ -t '<tags,>'][ -l "<hosts>"] <args>` |
| DeploymentFacts.PlainCmdStored | deployment.py:108-130 | the stored `cmd` of such a descriptor is that command |
| DeploymentFacts.SingletonCommand | deployment.py:108-130 | with one tag, one host pattern and one argument, the command is `<bin> <playbook> -t '<tag>' -l "<host>" <arg>` |
| DeploymentFacts.DocstringCommand | deployment.py:14-31 | the docstring's example descriptor, configured with the default binary, renders `/usr/bin/ansible-playbook /home/user/ansible/nginx/nginx.yml -t 'nginx_ssl_conf' -l "host-*.domain.ru" -e 'dg="domain.ru_year"'` |
| DeploymentFacts.ConfiguredRuns | deployment.py:132-156 | a configured task never takes the exit for a missing `cmd`: it previews its command in dry-run mode and otherwise spawns it with the filtered environment |
| DeploymentFacts.CommandRuns | deployment.py:133-156 | a task whose `cmd` is a non-empty string spawns or previews exactly that command |
| DeploymentFacts.KeptIff | deployment.py:140-143 | a variable is kept iff its name contains neither `VIRTUALENV` nor `VIRTUAL_ENV`; the `VIRTUALENVWRAPPER` prefix test adds nothing |
| DeploymentFacts.KeptPairsMembers | deployment.py:140-143 | a variable survives the filter iff it is in the environment and its name is kept |
| DeploymentFacts.SanitizedAppends | deployment.py:140-143 | the `new_env` loop appends the kept variables of the rest, in order, to what it has built |
| DeploymentFacts.SanitizedKeeps | deployment.py:137-143 | the spawned environment is the process environment with every virtualenv variable removed, in the original order |
| DeploymentFacts.ConfiguredListAt | deployment.py:40 | a list wraps iff every descriptor configures, and then element k holds descriptor k's configured fields |
| DeploymentFacts.ConfiguredListHalt | deployment.py:40 | a list that does not wrap halts as its first descriptor that raises |
| DeploymentFacts.ConfiguredTasksAt | deployment.py:39-40 | a group wraps iff every list does; task names, list lengths and order are kept |
| DeploymentFacts.ConfiguredAllAt | deployment.py:37-40 | the aggregate wraps iff every group does; group names, task names, lengths and order are kept |
| DeploymentFacts.ConfiguredAllGet | deployment.py:37-40 | a group is in the wrapped aggregate iff it was in the raw one, and holds its wrapped tasks |
| DeploymentFacts.ConfiguredTasksGet | deployment.py:39-40 | a task name is in a wrapped group iff it was in the raw one, and holds its wrapped list |
| DeploymentFacts.RanAllOutcome | deployment.py:88-89 | the tasks run in order; each effect is its task's; the run stops at the first task that halts, with that halt, and otherwise runs every task |
| DeploymentFacts.WrappedGroupRuns | deployment.py:71-89 | a missing group, or a missing task name in a present group, exits with 1 (0 under `skip_dg_notfound`) and runs nothing; otherwise every task runs, and each spawns or previews its configured command |
| DeploymentFacts.ShowDgRenders | deployment.py:45-61 | the model renders the `show_dg` listing exactly when no playbook it meets is a list or dict (Python's `str()` renders those too; the model leaves them out, and discovery only stores string playbooks, per `DiscoveryFacts.ResolvedPlaybook`) |
| DeploymentFacts.PlaybookLinesIndented | deployment.py:58-60 | every playbook line starts with a space |
| DeploymentFacts.TaskLinesIndented | deployment.py:56-60 | every line under a group starts with a space |
| DeploymentFacts.ShowDgGroups | deployment.py:45-61 | read back, the unindented lines of `show_dg` are the group names in order |
| DeploymentFacts.TagListing | deployment.py:63-68 | read back, `show_tags` splits into one `- <task>` line per configured task, in order, then the empty text after the last newline |

## Left out

- Finding and opening files (`_find_yaml_files`, `open_file`) and the
  YAML parser are not part of this model. `read_yaml` reads a map from
  paths to texts. A missing path raises. The text is parsed by a function
  given as a parameter. YAML syntax errors, and the broken logging call
  in their handler, are not modelled.
- `subprocess.Popen`, the child's return code and the error logged when
  it is non-zero are process I/O. `Task.run` stops at the command and the
  environment it would spawn.
- Logging is not modelled: every `logger` call, and the debug dump in
  `Task.run`.
- `DeploymentGroups.__str__` is left out; it goes through the yaml and
  json libraries.
- gron.py (the command line and config loading) and logger.py are not
  part of this model. The configuration is a parameter. Its `environment`
  items arrive already prefixed with `-e `.
- YAML integers, floats and non-string mapping keys are not modelled.
  Python's `str()` of a list or dict ends in `Unsupported`.
- Values are immutable here, so the deep copy at discovery.py:150 is
  implicit, and in-place changes to shared YAML objects are not modelled:
  - `hosts_item['vars'].update(...)` (discovery.py:79) and
    `data['deployment_groups'] = global_dg` (discovery.py:141) change
    dicts that another entry or task may share through a YAML alias; the
    model changes only its own copy.
  - The entry's `hosts` object reaches every descriptor through
    `kwargs` (discovery.py:157-158) and is shared by all of them; the model
    gives each descriptor the value.
- A `None` for `limit` or `ansible_bin` is written as the empty string.
  Both are falsy and the code treats them alike.
- The `tag is not None` test of `show_tags` is always true here, because
  task names are strings.
- Discovery.HostsVarsParsed: `_parse_hosts_vars` returns `None` for
  list-valued vars. Here it returns the empty result, which the caller
  treats the same way.
- Discovery.Validated: a descriptor whose `dg` is not a string ends in
  `Unsupported` rather than being filed under a non-string key.
- Yaml.UpdateWith: `dict.update` with a non-empty list of pairs ends
  in `Unsupported`.

# Task resolution and time-limited stopping of the clusterone training template

This project models the logic in `trainer.py` of the clusterone/TensorPort
training template that does not depend on TensorFlow:

- **Where a process learns its role** (`TaskSpec`, `get_task_spec`). The
  sources are tried in order, and the first one that applies decides:
  1. a true `--job_name` flag;
  2. a `JOB_NAME` environment variable;
  3. a `TF_CONFIG` environment variable holding JSON;
  4. the local default.

  The result holds the job name, the task index and an optional cluster. The
  cluster has two host lists, one for parameter servers (`ps`) and one for
  workers. A host argument may be a list, which is kept as given, or a
  comma-separated string, which is split.
- **`StopAtTimeHook`**. `begin` records a deadline. Each later `after_run`
  asks the session to stop when the time is strictly past that deadline.
- **Hook installation in `Trainer.__init__`**. The trainer keeps the caller's
  own hook list object. When the maximum run time is positive, it appends one
  `StopAtTimeHook` to that list. The `hooks=[]` default is a single list
  object, so every construction that leaves it out adds to the same list.

Outside inputs are parameters:

- the parsed command line is an `Args` record of optional strings;
- the environment is a `map<string, string>`;
- `json.loads` is a function from text to an optional parsed value;
- `time.time()` is an integer `now`.

Python values are the `PyValues.Value` datatype: None, bool, int, str, list
and dict. Python exceptions are `PyValues.Error` values carried in a `Result`.
The job name and the index are kept as Python values. So the index of a task
is a string when given by `--task_index`, whatever value `TF_CONFIG`'s
`index` holds (normally an int) when given there, and None when the flag is
missing.

Layout: `py_values.dfy` holds the Python values, truthiness and lookups.
`hosts.dfy` holds `str.split(',')` and its inverse `','.join`.
`task_spec.dfy` holds the `TaskSpec` constructor. `resolution.dfy` holds
`get_task_spec`. `hooks.dfy` holds `StopAtTimeHook` and hook lists.
`trainer.dfy` holds `Trainer.__init__`.

`Resolution.GetTaskSpec` is the cascade, with one function per branch:
`FromArgs`, `FromEnvironment` and `FromTfConfig`. Its independent partner is
`Resolution.FirstMatch` over the ordered list `Priority` of sources.
`Resolution.CascadeIsFirstMatch` proves that the two agree.

### Behaviour worth noting

- The constructor's default job name is `'mater'` (trainer.py:17), so a
  process with no source set gets job `'mater'`. The string `'master'`
  appears only as the default task of the `TF_CONFIG` branch (trainer.py:52).
- The docstring of `get_task_spec` says it "returns a TaskSpec object"
  (trainer.py:31-33). The `JOB_NAME` branch (trainer.py:46-49) never does.
  A missing `TASK_INDEX` raises `KeyError`. Otherwise
  `os.environ.get(['PS_HOSTS'], None)` raises `TypeError`, because the
  environment mapping rejects a key that is not a string.
- Malformed `TF_CONFIG` content raises while resolving (trainer.py:51-55),
  and so does a bad host value (trainer.py:22-23):
  - `KeyError` for a missing `type`, `index`, `ps` or `worker`;
  - `TypeError` when a non-empty `task` or `cluster` is not a dict;
  - `AttributeError` for `.split` on a host value that is neither a list nor
    a string;
  - `AttributeError` for `.get` when the `TF_CONFIG` document is not a JSON
    object.
- `after_run` calls `request_stop` on every call past the deadline, not only
  the first (trainer.py:189-191). `Hooks.DeadlineRun` counts two `request_stop`
  calls after two such calls.
- The job name is stored as received (trainer.py:18), whatever its value.

## Model

| member | source | states |
|---|---|---|
| PyValues.Truthy | trainer.py:21 | Python truth value of None, bool, int, str, list and dict, as used by the tests at trainer.py:21, 42 and 52-53; its effect is stated by `NewTaskSpec`, `CliWins`, `TfConfigDefaultTask` and `TfConfigNoCluster` |
| PyValues.Or | trainer.py:52-53 | `a or b` is always one of its two operands, and it is true exactly when `a` or `b` is true; a true `a` is returned as it is |
| PyValues.Subscript | trainer.py:54-55 | the definition of Python's `v[key]`; its effect is stated by `TfConfigTaskMalformed`, `TfConfigClusterMalformed` and `TfConfigComplete`, and its relation to `.get` by `GetIsSubscriptWithDefault` |
| PyValues.Get | trainer.py:52-53 | the definition of Python's `v.get(key, default)`; its effect is stated by `TfConfigNotAnObject`, `TfConfigDefaultTask`, `TfConfigNoCluster` and `TfConfigEmpty` |
| PyValues.GetIsSubscriptWithDefault | trainer.py:52-55 | on a dict, `v.get(key, default)` is `v[key]` with its `KeyError` replaced by the default; on any other value both lookups fail |
| PyValues.EnvironItem | trainer.py:46-47 | the definition of `os.environ[key]`; its relation to `os.environ.get` is stated by `EnvironGet`, and its effect on the `JOB_NAME` branch by `EnvironmentBranchFails` |
| PyValues.EnvironGet | trainer.py:48-49 | `os.environ.get(key, default)` gives the value or the default for a string key; a non-string key still raises `TypeError` |
| Hosts.Split | trainer.py:22-23 | `s.split(',')` yields at least one piece, and no piece contains a comma |
| Hosts.JoinSplit | trainer.py:22-23 | joining the pieces of `s` with commas gives back `s`, so empty pieces are kept |
| Hosts.SplitJoin | trainer.py:22-23 | splitting comma-free pieces joined with commas gives back exactly those pieces |
| Hosts.SplitUnique | trainer.py:22-23 | the split is the only comma-free decomposition that joins back to the string |
| TaskSpecs.HostList | trainer.py:22-23 | the definition of `hosts if isinstance(hosts, list) else hosts.split(',')`; what it gives is stated by `HostStringPieces`, `HostListKept` and `NewTaskSpec` |
| TaskSpecs.HostStringPieces | trainer.py:22-23 | a host string becomes one string per comma-separated piece, and those pieces join back to the original |
| TaskSpecs.HostListKept | trainer.py:22 | a list of hosts is taken as given |
| TaskSpecs.NewTaskSpec | trainer.py:17-26 | keeps job name and index as given; cluster present exactly when both host arguments are true; then the cluster lists are the host lists; fails with `AttributeError('split')` exactly when both are true and one is neither list nor string |
| TaskSpecs.ClusterBuilt | trainer.py:21-24 | with both host arguments true and splittable, the cluster is built from their host lists |
| TaskSpecs.NoClusterWithoutBothHosts | trainer.py:21-26 | if either host argument is false, the result is a task spec with no cluster and never an error |
| TaskSpecs.DefaultTaskSpec | trainer.py:17 | `TaskSpec()` has job name `'mater'`, index 0 and no cluster |
| Resolution.GetTaskSpec | trainer.py:29-57 | the cascade itself; its properties are stated by `CascadeIsFirstMatch`, `CliWins`, `EnvironmentBranchFails`, `TfConfigBranch` and `LocalDefault` |
| Resolution.FromArgs | trainer.py:42-44 | the command-line branch; its properties are stated by `CliWins` and `CliHostsSplit` |
| Resolution.FromEnvironment | trainer.py:46-49 | the `JOB_NAME` branch as written; its properties are stated by `EnvironmentBranchFails` |
| Resolution.FromTfConfig | trainer.py:50-55 | the `TF_CONFIG` branch; its properties are stated by the `TfConfig*` lemmas |
| Resolution.CascadeIsFirstMatch | trainer.py:29-57 | `get_task_spec` is the outcome of the first applicable source in the order command line, `JOB_NAME`, `TF_CONFIG`, local default |
| Resolution.CliWins | trainer.py:42-44 | a true `--job_name` gives the same outcome whatever the environment and `TF_CONFIG` hold; it always succeeds, with the flag's job name and `--task_index` as index; cluster iff both host flags are non-empty |
| Resolution.CliHostsSplit | trainer.py:42-44 | non-empty host flags become the comma-separated pieces of each flag |
| Resolution.EnvironmentBranchFails | trainer.py:46-49 | with no true `--job_name` and `JOB_NAME` set, the result is always an error: `KeyError('TASK_INDEX')` if that is unset, else the `TypeError` of the list-keyed lookup |
| Resolution.TfConfigBranch | trainer.py:50-55 | with no true `--job_name` and no `JOB_NAME`, a set `TF_CONFIG` decides through its parsed content |
| Resolution.LocalDefault | trainer.py:56-57 | with no source set, the result is job `'mater'`, index 0, no cluster |
| Resolution.TfConfigNotAnObject | trainer.py:51-52 | text that is not JSON is a decode error; a JSON value that is not an object raises `AttributeError('get')` |
| Resolution.TfConfigDefaultTask | trainer.py:52-54 | a missing or empty `task` gives type `'master'` and index 0 |
| Resolution.TfConfigNoCluster | trainer.py:53-55 | a missing or empty `cluster` gives no cluster, and the result succeeds exactly when the task is readable |
| Resolution.TfConfigEmpty | trainer.py:52-55 | with `task` and `cluster` both missing or empty: `'master'`, 0, no cluster |
| Resolution.TfConfigTaskMalformed | trainer.py:52-54 | a non-empty `task` that is not a dict raises `TypeError`; one lacking `type` raises `KeyError('type')`; one lacking `index` raises `KeyError('index')` |
| Resolution.TfConfigClusterMalformed | trainer.py:53-55 | with a readable task, a non-empty `cluster` that is not a dict raises `TypeError`; one lacking `ps` or `worker` raises that `KeyError` |
| Resolution.TfConfigComplete | trainer.py:50-55 | a complete `TF_CONFIG` gives the task spec built from its `type`, `index`, `ps` and `worker` |
| Resolution.CliExample | trainer.py:42-44 | `--job_name worker --task_index 1 --ps_hosts a:1,b:2 --worker_hosts c:3` gives job `worker`, index `'1'`, ps `a:1`, `b:2` and worker `c:3` |
| Hosts.SplitExample | trainer.py:22-23 | `'a:1,b:2'` splits into `a:1`, `b:2`, and `'c:3'` into `c:3` |
| Resolution.TfConfigExample | trainer.py:50-55 | the worker-2 document with one `ps` host and two workers resolves to that task and cluster |
| Hooks.StopIffPastDeadline | trainer.py:186-191 | after `begin(start)`, one `after_run` at `now` requests a stop exactly when `now > start + duration`, and none otherwise |
| Hooks.DeadlineThenLater | trainer.py:186-191 | after `begin(start)`, a call at the deadline requests nothing, and a call at any later time requests one stop |
| Hooks.Expired | trainer.py:190 | the stop condition `now > end_time`; its meaning is stated by `StopAtTimeHook.AfterRun`, `StopIffPastDeadline` and `DeadlineThenLater` |
| Hooks.StopAtTimeHook.constructor | trainer.py:180-184 | the hook keeps its duration and has no deadline yet |
| Hooks.StopAtTimeHook.Begin | trainer.py:186-187 | the deadline becomes `now + duration` |
| Hooks.StopAtTimeHook.AfterRun | trainer.py:189-191 | before `begin`, raises `AttributeError('_end_time')`; after it, adds one stop request exactly when `now` is past the deadline, and none otherwise; a call past the deadline leaves a stop requested |
| Hooks.RunContext.RequestStop | trainer.py:191 | each `request_stop` call adds one stop request |
| Hooks.DeadlineRun | trainer.py:186-191 | after `begin(start)`, no stop at `start` or at the deadline, so no stop is requested yet; one request just past it, after which a stop is requested; another at every later call |
| Hooks.HookList.Append | trainer.py:117 | `list.append` puts the hook at the end and keeps the earlier entries |
| Training.Trainer.constructor | trainer.py:88-120 | stores the paths and cadences; keeps the caller's own list objects; appends exactly one new, not yet begun hook of duration `max_time` when `max_time > 0`, and nothing otherwise; another list is untouched |
| Training.InitDefaults.constructor | trainer.py:90 | the default `hooks` and `chief_only_hooks` are two distinct empty lists |
| Training.NewTrainerWithDefaults | trainer.py:88-90 | a construction that omits the lists gets the shared default list objects and the default cadences 600, 100 and 100 |
| Training.TwoTrainersWithDefaults | trainer.py:115-117 | two constructions with positive maximum times on the defaults share one hook list, which gains two distinct hooks and keeps its earlier entries |
| Training.DefaultMaxTimeAddsNothing | trainer.py:88 | with the default `max_time=-1`, the caller's hook list is left as it was |

## Left out

- `Trainer.train`: the server start and `server.join()` for a `ps` process are not modelled. Nor are device placement, graph construction, the monitored session, its `should_stop` loop and the chief test `index == 0`. All of this drives TensorFlow objects.
- `DatasetSpec`: it is a plain holder of four strings with no behaviour.
- `get_data_path` and `get_logs_path`: these are external TensorPort calls. Their results are passed to `Trainer` as opaque strings.
- `logging`: calls to it have no effect on the modelled state.
- The session configuration object stored by `Trainer.__init__`: it is an opaque TensorFlow `ConfigProto` that the constructor only stores.
- argparse, `os.environ` and `json.loads` mechanics: they appear as an `Args` record, a map and a parser function. Errors that argparse itself can raise, such as an unknown flag, are not modelled.
- JSON floats: they are not part of `PyValues.Value`.
- `tf.train.ClusterSpec` validation: the cluster keeps each host list as given. Whether TensorFlow accepts the entries of a list is not modelled.
- `time.time()`: wall-clock time is a float in the source and an integer `now` parameter here.
- `Hooks.RunContext`: it stands for TensorFlow's `SessionRunContext` only as far as `request_stop` goes. In the model it is one object that counts the `request_stop` calls it receives. In TensorFlow a new run context is made for each `run`, and `request_stop` only sets a flag on it. So the request counts of `DeadlineRun`, `StopIffPastDeadline` and `DeadlineThenLater` are numbers of calls, not a TensorFlow state.
- Hooks supplied by callers: they are opaque entries (`Hooks.Hook.Supplied`) told apart by an identity.

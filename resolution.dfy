/**
 * get_task_spec (trainer.py:29-57): where this process learns its role.
 * The sources are tried in a fixed order and the first that applies decides:
 * a true `--job_name` flag, then a `JOB_NAME` environment variable, then a
 * `TF_CONFIG` environment variable holding JSON, and finally the local default.
 * The parsed command line, the environment and json.loads are parameters.
 */
module Resolution {
  import opened PyValues
  import opened TaskSpecs
  import Hosts

  /** The four optional command-line flags, as argparse leaves them. */
  datatype Args = Args(jobName: Option<string>, taskIndex: Option<string>,
                       psHosts: Option<string>, workerHosts: Option<string>)

  /** json.loads: the parsed document, or None when the text is not JSON. */
  type JsonParser = string -> Option<Value>

  /** An argparse attribute as a Python value: the string, or None. */
  function ArgValue(a: Option<string>): (v: Value)
    ensures a.None? ==> v == Null
    ensures a.Some? ==> v == Str(a.value)
  {
    match a
    case None => Null
    case Some(s) => Str(s)
  }

  /** `if args.job_name:` */
  predicate CliJobGiven(args: Args) {
    Truthy(ArgValue(args.jobName))
  }

  /** The command-line branch (trainer.py:42-44). */
  function FromArgs(args: Args): (r: Result<TaskSpec>)
  {
    NewTaskSpec(ArgValue(args.jobName), ArgValue(args.taskIndex),
                ArgValue(args.psHosts), ArgValue(args.workerHosts))
  }

  /** The environment-variable branch (trainer.py:46-49), as written: the host
      variables are looked up with one-element lists as keys. */
  function FromEnvironment(env: Environment): (r: Result<TaskSpec>)
  {
    var jobName :- EnvironItem(env, Str("JOB_NAME"));
    var index :- EnvironItem(env, Str("TASK_INDEX"));
    match EnvironGet(env, List([Str("PS_HOSTS")]), Null)
    case Err(e) => Err(e)
    case Ok(psHosts) =>
      match EnvironGet(env, List([Str("WORKER_HOSTS")]), Null)
      case Err(e) => Err(e)
      case Ok(workerHosts) => NewTaskSpec(jobName, index, psHosts, workerHosts)
  }

  /** The task an empty or missing `task` entry stands for. */
  const DefaultTask: Value := Dict(map["type" := Str("master"), "index" := Int(0)])

  /** The cluster an empty or missing `cluster` entry stands for. */
  const DefaultClusterData: Value := Dict(map["ps" := Null, "worker" := Null])

  /** The TF_CONFIG branch (trainer.py:50-55) on the outcome of json.loads. */
  function FromTfConfig(config: Option<Value>): (r: Result<TaskSpec>)
  {
    var doc :- if config.Some? then Ok(config.value) else Err(JsonDecodeError);
    var task :- Get(doc, "task", Null);
    var taskData := Or(task, DefaultTask);
    var cluster :- Get(doc, "cluster", Null);
    var clusterData := Or(cluster, DefaultClusterData);
    var jobName :- Subscript(taskData, "type");
    var index :- Subscript(taskData, "index");
    var psHosts :- Subscript(clusterData, "ps");
    var workerHosts :- Subscript(clusterData, "worker");
    NewTaskSpec(jobName, index, psHosts, workerHosts)
  }

  /** get_task_spec(): the first source that applies decides. */
  function GetTaskSpec(args: Args, env: Environment, parse: JsonParser): (r: Result<TaskSpec>)
  {
    if CliJobGiven(args) then FromArgs(args)
    else if "JOB_NAME" in env then FromEnvironment(env)
    else if "TF_CONFIG" in env then FromTfConfig(parse(env["TF_CONFIG"]))
    else Ok(DefaultTaskSpec())
  }

  // ---------------------------------------------------------------------
  // The cascade as an ordered list of strategies

  /** The places a task spec can come from, in the order they are tried. */
  datatype Source = CommandLine | EnvironmentVariables | TfConfig | Local

  const Priority: seq<Source> := [CommandLine, EnvironmentVariables, TfConfig, Local]

  /** What one source yields: None when it does not apply. */
  function Resolve(src: Source, args: Args, env: Environment, parse: JsonParser): (r: Option<Result<TaskSpec>>)
    ensures src == Local ==> r.Some?
  {
    match src
    case CommandLine => if CliJobGiven(args) then Some(FromArgs(args)) else None
    case EnvironmentVariables => if "JOB_NAME" in env then Some(FromEnvironment(env)) else None
    case TfConfig => if "TF_CONFIG" in env then Some(FromTfConfig(parse(env["TF_CONFIG"]))) else None
    case Local => Some(Ok(DefaultTaskSpec()))
  }

  /** The outcome of the first source in `sources` that applies. */
  function FirstMatch(sources: seq<Source>, args: Args, env: Environment, parse: JsonParser): (r: Option<Result<TaskSpec>>)
    ensures Local in sources ==> r.Some?
  {
    if sources == [] then None
    else
      var here := Resolve(sources[0], args, env, parse);
      if here.Some? then here else FirstMatch(sources[1..], args, env, parse)
  }

  /** get_task_spec is the first-match cascade over CLI, environment, TF_CONFIG, default. */
  lemma {:induction false} CascadeIsFirstMatch(args: Args, env: Environment, parse: JsonParser)
    ensures FirstMatch(Priority, args, env, parse) == Some(GetTaskSpec(args, env, parse))
  {
    var r := GetTaskSpec(args, env, parse);
    assert Priority[1..] == [EnvironmentVariables, TfConfig, Local];
    assert Priority[1..][1..] == [TfConfig, Local];
    assert Priority[1..][1..][1..] == [Local];
    assert FirstMatch([Local], args, env, parse) == Some(Ok(DefaultTaskSpec()));
    if !CliJobGiven(args) && "JOB_NAME" !in env {
      assert FirstMatch([TfConfig, Local], args, env, parse) == Some(r);
    }
    if !CliJobGiven(args) {
      assert FirstMatch([EnvironmentVariables, TfConfig, Local], args, env, parse) == Some(r);
    }
  }

  // ---------------------------------------------------------------------
  // Properties of the cascade

  /** A true `--job_name` wins outright: the environment and TF_CONFIG are never
      consulted, and the job, index and hosts are the flags'. */
  lemma CliWins(args: Args, env: Environment, parse: JsonParser, env': Environment, parse': JsonParser)
    requires CliJobGiven(args)
    ensures GetTaskSpec(args, env, parse) == GetTaskSpec(args, env', parse')
    ensures GetTaskSpec(args, env, parse).Ok?
    ensures GetTaskSpec(args, env, parse).value.jobName == Str(args.jobName.value)
    ensures GetTaskSpec(args, env, parse).value.index == ArgValue(args.taskIndex)
    ensures GetTaskSpec(args, env, parse).value.cluster.Some? <==>
              Truthy(ArgValue(args.psHosts)) && Truthy(ArgValue(args.workerHosts))
  {
  }

  /** Host flags given on the command line are split on commas. */
  lemma CliHostsSplit(args: Args, env: Environment, parse: JsonParser)
    requires CliJobGiven(args)
    requires args.psHosts.Some? && args.psHosts.value != ""
    requires args.workerHosts.Some? && args.workerHosts.value != ""
    ensures GetTaskSpec(args, env, parse) ==
              Ok(TaskSpec(Str(args.jobName.value), ArgValue(args.taskIndex),
                          Some(Cluster(StrValues(Hosts.Split(args.psHosts.value)),
                                       StrValues(Hosts.Split(args.workerHosts.value))))))
  {
  }

  /** Without a true `--job_name`, a JOB_NAME variable always ends in an error:
      a missing TASK_INDEX raises KeyError, and otherwise the list-keyed
      lookup of PS_HOSTS raises TypeError. */
  lemma EnvironmentBranchFails(args: Args, env: Environment, parse: JsonParser)
    requires !CliJobGiven(args) && "JOB_NAME" in env
    ensures GetTaskSpec(args, env, parse).Err?
    ensures "TASK_INDEX" !in env ==> GetTaskSpec(args, env, parse).error == KeyError("TASK_INDEX")
    ensures "TASK_INDEX" in env ==> GetTaskSpec(args, env, parse).error == EnvKeyNotString
  {
  }

  /** With neither a true `--job_name` nor JOB_NAME, TF_CONFIG decides when set. */
  lemma TfConfigBranch(args: Args, env: Environment, parse: JsonParser)
    requires !CliJobGiven(args) && "JOB_NAME" !in env && "TF_CONFIG" in env
    ensures GetTaskSpec(args, env, parse) == FromTfConfig(parse(env["TF_CONFIG"]))
  {
  }

  /** With no source set, the local default: job 'mater', index 0, no cluster. */
  lemma LocalDefault(args: Args, env: Environment, parse: JsonParser)
    requires !CliJobGiven(args) && "JOB_NAME" !in env && "TF_CONFIG" !in env
    ensures GetTaskSpec(args, env, parse) == Ok(TaskSpec(Str("mater"), Int(0), None))
  {
  }

  // ---------------------------------------------------------------------
  // Properties of the TF_CONFIG branch

  /** `d.get(key)` is missing or false. */
  predicate AbsentOrEmpty(m: map<string, Value>, key: string) {
    key !in m || !Truthy(m[key])
  }

  /** A task entry the code can read: missing or false, or a dict with both keys. */
  predicate TaskReadable(m: map<string, Value>) {
    AbsentOrEmpty(m, "task") ||
    (m["task"].Dict? && "type" in m["task"].entries && "index" in m["task"].entries)
  }

  /** Text that is not JSON, or JSON that is not an object, is an error. */
  lemma TfConfigNotAnObject(config: Option<Value>)
    requires config.None? || !config.value.Dict?
    ensures FromTfConfig(config).Err?
    ensures config.None? ==> FromTfConfig(config).error == JsonDecodeError
    ensures config.Some? ==> FromTfConfig(config).error == AttributeError("get")
  {
  }

  /** A missing or empty task gives type 'master' and index 0. */
  lemma TfConfigDefaultTask(m: map<string, Value>)
    requires AbsentOrEmpty(m, "task")
    ensures FromTfConfig(Some(Dict(m))).Ok? ==>
              FromTfConfig(Some(Dict(m))).value.jobName == Str("master") &&
              FromTfConfig(Some(Dict(m))).value.index == Int(0)
  {
  }

  /** A missing or empty cluster gives no cluster, and only the task can fail. */
  lemma TfConfigNoCluster(m: map<string, Value>)
    requires AbsentOrEmpty(m, "cluster")
    ensures FromTfConfig(Some(Dict(m))).Ok? <==> TaskReadable(m)
    ensures FromTfConfig(Some(Dict(m))).Ok? ==> FromTfConfig(Some(Dict(m))).value.cluster.None?
  {
  }

  /** With both the task and the cluster missing or empty: master, 0, no cluster. */
  lemma TfConfigEmpty(m: map<string, Value>)
    requires AbsentOrEmpty(m, "task") && AbsentOrEmpty(m, "cluster")
    ensures FromTfConfig(Some(Dict(m))) == Ok(TaskSpec(Str("master"), Int(0), None))
  {
  }

  /** A non-empty task that is not a dict, or lacks 'type' or 'index', is an error. */
  lemma TfConfigTaskMalformed(m: map<string, Value>)
    requires !AbsentOrEmpty(m, "task")
    ensures !m["task"].Dict? ==> FromTfConfig(Some(Dict(m))) == Err(NotSubscriptable)
    ensures m["task"].Dict? && "type" !in m["task"].entries ==>
              FromTfConfig(Some(Dict(m))) == Err(KeyError("type"))
    ensures m["task"].Dict? && "type" in m["task"].entries && "index" !in m["task"].entries ==>
              FromTfConfig(Some(Dict(m))) == Err(KeyError("index"))
  {
  }

  /** Once the task is readable, a non-empty cluster that is not a dict, or lacks
      'ps' or 'worker', is an error. */
  lemma TfConfigClusterMalformed(m: map<string, Value>)
    requires TaskReadable(m) && !AbsentOrEmpty(m, "cluster")
    ensures !m["cluster"].Dict? ==> FromTfConfig(Some(Dict(m))) == Err(NotSubscriptable)
    ensures m["cluster"].Dict? && "ps" !in m["cluster"].entries ==>
              FromTfConfig(Some(Dict(m))) == Err(KeyError("ps"))
    ensures m["cluster"].Dict? && "ps" in m["cluster"].entries && "worker" !in m["cluster"].entries ==>
              FromTfConfig(Some(Dict(m))) == Err(KeyError("worker"))
  {
  }

  /** A complete TF_CONFIG gives the task's type and index and its cluster. */
  lemma TfConfigComplete(m: map<string, Value>)
    requires "task" in m && m["task"].Dict?
    requires "type" in m["task"].entries && "index" in m["task"].entries
    requires "cluster" in m && m["cluster"].Dict?
    requires "ps" in m["cluster"].entries && "worker" in m["cluster"].entries
    ensures FromTfConfig(Some(Dict(m))) ==
              NewTaskSpec(m["task"].entries["type"], m["task"].entries["index"],
                          m["cluster"].entries["ps"], m["cluster"].entries["worker"])
  {
  }

  // ---------------------------------------------------------------------
  // Worked examples

  /** `--job_name worker --task_index 1 --ps_hosts a:1,b:2 --worker_hosts c:3`. */
  lemma CliExample(args: Args, env: Environment, parse: JsonParser)
    requires args == Args(Some("worker"), Some("1"), Some("a:1,b:2"), Some("c:3"))
    ensures GetTaskSpec(args, env, parse) ==
              Ok(TaskSpec(Str("worker"), Str("1"),
                          Some(Cluster([Str("a:1"), Str("b:2")], [Str("c:3")]))))
  {
    CliHostsSplit(args, env, parse);
    Hosts.SplitExample();
    assert StrValues(["a:1", "b:2"]) == [Str("a:1"), Str("b:2")];
    assert StrValues(["c:3"]) == [Str("c:3")];
  }

  /** TF_CONFIG `{"task": {"type": "worker", "index": 2},
                 "cluster": {"ps": ["p:1"], "worker": ["w:1", "w:2"]}}`. */
  lemma TfConfigExample()
    ensures FromTfConfig(Some(Dict(map[
              "task" := Dict(map["type" := Str("worker"), "index" := Int(2)]),
              "cluster" := Dict(map["ps" := List([Str("p:1")]),
                                    "worker" := List([Str("w:1"), Str("w:2")])])]))) ==
            Ok(TaskSpec(Str("worker"), Int(2),
                        Some(Cluster([Str("p:1")], [Str("w:1"), Str("w:2")]))))
  {
    var task := Dict(map["type" := Str("worker"), "index" := Int(2)]);
    var cluster := Dict(map["ps" := List([Str("p:1")]), "worker" := List([Str("w:1"), Str("w:2")])]);
    var m := map["task" := task, "cluster" := cluster];
    assert m["task"] == task && m["cluster"] == cluster;
    assert task.entries["type"] == Str("worker") && task.entries["index"] == Int(2);
    assert cluster.entries["ps"] == List([Str("p:1")]);
    assert cluster.entries["worker"] == List([Str("w:1"), Str("w:2")]);
    TfConfigComplete(m);
  }
}

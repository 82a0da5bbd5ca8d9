/**
 * TaskSpec (trainer.py:11-26): the job name and task index of this process
 * and, when it runs distributed, the cluster of parameter-server and worker
 * endpoints.  The constructor keeps the job name and index exactly as given
 * (a string from the command line, whatever value TF_CONFIG's `index` holds,
 * normally an int, and None when a flag is missing) and builds a cluster only
 * when both host arguments are true.
 */
module TaskSpecs {
  import opened PyValues
  import Hosts

  /** The `{'ps': ..., 'worker': ...}` dictionary handed to tf.train.ClusterSpec. */
  datatype Cluster = Cluster(ps: seq<Value>, worker: seq<Value>)

  datatype TaskSpec = TaskSpec(jobName: Value, index: Value, cluster: Option<Cluster>)

  /** The constructor's default job name, spelled as in the source. */
  const DefaultJobName: string := "mater"

  /** Each piece of a split host string, as a Python string. */
  function StrValues(parts: seq<string>): (vs: seq<Value>)
    ensures |vs| == |parts|
    ensures forall i :: 0 <= i < |parts| ==> vs[i] == Str(parts[i])
  {
    if parts == [] then [] else [Str(parts[0])] + StrValues(parts[1..])
  }

  /** Whether `x if isinstance(x, list) else x.split(',')` can be evaluated. */
  predicate Splittable(hosts: Value) {
    hosts.List? || hosts.Str?
  }

  /** `hosts if isinstance(hosts, list) else hosts.split(',')`. */
  function HostList(hosts: Value): (r: Result<seq<Value>>)
    ensures r.Ok? <==> Splittable(hosts)
    ensures hosts.List? ==> r == Ok(hosts.items)
    ensures hosts.Str? ==> r == Ok(StrValues(Hosts.Split(hosts.s)))
    ensures !Splittable(hosts) ==> r == Err(AttributeError("split"))
  {
    match hosts
    case List(items) => Ok(items)
    case Str(s) => Ok(StrValues(Hosts.Split(s)))
    case _ => Err(AttributeError("split"))
  }

  /** `TaskSpec(job_name, index, ps_hosts, worker_hosts)`. */
  function NewTaskSpec(jobName: Value, index: Value, psHosts: Value, workerHosts: Value): (r: Result<TaskSpec>)
    ensures r.Ok? ==> r.value.jobName == jobName && r.value.index == index
    ensures r.Ok? ==> (r.value.cluster.Some? <==> Truthy(psHosts) && Truthy(workerHosts))
    ensures r.Ok? && r.value.cluster.Some? ==>
              HostList(psHosts) == Ok(r.value.cluster.value.ps) &&
              HostList(workerHosts) == Ok(r.value.cluster.value.worker)
    ensures r.Err? <==> Truthy(psHosts) && Truthy(workerHosts) && !(Splittable(psHosts) && Splittable(workerHosts))
    ensures r.Err? ==> r.error == AttributeError("split")
  {
    if Truthy(psHosts) && Truthy(workerHosts) then
      var ps :- HostList(psHosts);
      var worker :- HostList(workerHosts);
      Ok(TaskSpec(jobName, index, Some(Cluster(ps, worker))))
    else
      Ok(TaskSpec(jobName, index, None))
  }

  /** `TaskSpec()` with every argument at its default. */
  function DefaultTaskSpec(): (t: TaskSpec)
    ensures t.jobName == Str(DefaultJobName) && t.index == Int(0) && t.cluster.None?
  {
    NewTaskSpec(Str(DefaultJobName), Int(0), Null, Null).value
  }

  /** A comma-separated host string becomes its pieces, empty ones included,
      and those pieces joined with commas are the string again. */
  lemma HostStringPieces(s: string)
    ensures HostList(Str(s)).Ok?
    ensures |HostList(Str(s)).value| == |Hosts.Split(s)|
    ensures forall i :: 0 <= i < |Hosts.Split(s)| ==> HostList(Str(s)).value[i] == Str(Hosts.Split(s)[i])
    ensures Hosts.Join(Hosts.Split(s)) == s
  {
    Hosts.JoinSplit(s);
  }

  /** A list of hosts is taken as given. */
  lemma HostListKept(items: seq<Value>)
    ensures HostList(List(items)) == Ok(items)
  {
  }

  /** With both host arguments true and splittable, the cluster is built from them. */
  lemma ClusterBuilt(jobName: Value, index: Value, psHosts: Value, workerHosts: Value)
    requires Truthy(psHosts) && Truthy(workerHosts)
    requires Splittable(psHosts) && Splittable(workerHosts)
    ensures NewTaskSpec(jobName, index, psHosts, workerHosts) ==
              Ok(TaskSpec(jobName, index, Some(Cluster(HostList(psHosts).value, HostList(workerHosts).value))))
  {
  }

  /** Without both host arguments there is no cluster, and nothing can fail. */
  lemma NoClusterWithoutBothHosts(jobName: Value, index: Value, psHosts: Value, workerHosts: Value)
    requires !Truthy(psHosts) || !Truthy(workerHosts)
    ensures NewTaskSpec(jobName, index, psHosts, workerHosts) == Ok(TaskSpec(jobName, index, None))
  {
  }
}

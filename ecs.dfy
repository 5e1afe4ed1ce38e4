/** ECS task metadata and the dimensions derived from it. */
module Ecs {
  import opened Strings

  /** One network attachment of a container. */
  datatype Network = Network(networkMode: string, ipAddresses: seq<string>)

  /** A container of an ECS task, as the task metadata endpoint describes it. */
  datatype Container = Container(
    dockerID: string,
    name: string,
    image: string,
    knownStatus: string,
    containerType: string,
    labels: map<string, string>,
    cpuLimit: int,
    networks: seq<Network>)

  /** The properties of an ECS task that the agent reads from the task metadata endpoint. */
  datatype TaskMetadata = TaskMetadata(
    clusterName: string,
    taskARN: string,
    family: string,
    revision: string,
    knownStatus: string,
    containers: seq<Container>)

  /**
   * The task's dimensions. The cluster is named by what follows the first `/` of the cluster
   * field (an ARN such as `arn:aws:ecs:region:account:cluster/name`), or by the whole field when it
   * has no `/`; later slashes are kept. The task ARN, family and revision are copied unchanged.
   */
  function GetDimensions(task: TaskMetadata): (dims: map<string, string>)
    ensures dims.Keys == {"ClusterName", "ecs_task_arn", "ecs_task_group", "ecs_task_version"}
    ensures dims["ecs_task_arn"] == task.taskARN
    ensures dims["ecs_task_group"] == task.family
    ensures dims["ecs_task_version"] == task.revision
    ensures var name := dims["ClusterName"]; var cluster := task.clusterName;
      |name| <= |cluster| && cluster[|cluster| - |name|..] == name
    ensures '/' !in task.clusterName ==> dims["ClusterName"] == task.clusterName
    ensures '/' in task.clusterName ==>
      var name := dims["ClusterName"]; var cluster := task.clusterName; var slash := |cluster| - |name| - 1;
      0 <= slash && cluster[slash] == '/' && '/' !in cluster[..slash]
  {
    var idx := IndexOf(task.clusterName, '/');
    var clusterName := if idx >= 0 then task.clusterName[idx + 1..] else task.clusterName;
    map[]["ClusterName" := clusterName]
         ["ecs_task_arn" := task.taskARN]
         ["ecs_task_group" := task.family]
         ["ecs_task_version" := task.revision]
  }
}

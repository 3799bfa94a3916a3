/** The three-way routing choice at the head of
    DistributedAPI.distribute_function. */
module Routing {

  datatype Decision =
    | Local    // execute_local_request
    | Forward  // forward_request
    | Remote   // execute_remote_request

  /** The first branch: the request is answered on this node. */
  predicate RunsHere(dapiEnabled: bool, clusterDisabled: bool, requestType: string,
                     nodeType: string, fromCluster: bool)
  {
    || !dapiEnabled
    || clusterDisabled
    || requestType == "local_any"
    || (requestType == "local_master" && nodeType == "master")
    || (requestType == "distributed_master" && fromCluster)
  }

  /** The branch distribute_function takes.  `clusterDisabled` is the result
      of check_cluster_status(), true when the cluster is disabled. */
  function Route(dapiEnabled: bool, clusterDisabled: bool, requestType: string,
                 nodeType: string, fromCluster: bool): (d: Decision)
    ensures d == Local <==> RunsHere(dapiEnabled, clusterDisabled, requestType, nodeType, fromCluster)
    ensures d == Forward <==>
              && !RunsHere(dapiEnabled, clusterDisabled, requestType, nodeType, fromCluster)
              && requestType == "distributed_master" && nodeType == "master"
    ensures d == Remote <==>
              && !RunsHere(dapiEnabled, clusterDisabled, requestType, nodeType, fromCluster)
              && !(requestType == "distributed_master" && nodeType == "master")
    // only the master forwards, and only requests that were not forwarded to it
    ensures d == Forward ==> nodeType == "master" && !fromCluster && dapiEnabled && !clusterDisabled
    // a request already forwarded by the master is never forwarded again
    ensures fromCluster && requestType == "distributed_master" ==> d == Local
    // on an enabled cluster, a type other than the three known ones goes to the master
    ensures (dapiEnabled && !clusterDisabled && requestType !in {"local_any", "local_master", "distributed_master"})
            ==> d == Remote
    // a worker sends local_master requests to the master
    ensures (dapiEnabled && !clusterDisabled && requestType == "local_master" && nodeType != "master")
            ==> d == Remote
  {
    if RunsHere(dapiEnabled, clusterDisabled, requestType, nodeType, fromCluster) then Local
    else if requestType == "distributed_master" && nodeType == "master" then Forward
    else Remote
  }
}

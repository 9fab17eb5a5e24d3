/**
 * The cluster as the controller sees it through its client: a store of
 * VerticalPodAutoscalerController resources and Deployments keyed by namespace
 * and name, answering get, create and update requests. Which requests fail with
 * a transient error is not something the controller can know; the store carries
 * a fault script, and every request takes the next entry of it (a request that
 * meets an empty script is served normally). Every write request is logged, so
 * that "no update was issued" can be stated.
 */
module Store {
  import opened Kube

  datatype Write = CreateRequest(deployment: Deployment) | UpdateRequest(deployment: Deployment)

  datatype Cluster = Cluster(
    vpas: map<NamespacedName, VerticalPodAutoscalerController>,
    deployments: map<NamespacedName, Deployment>,
    faults: seq<Option<Error>>,
    writes: seq<Write>)

  /** Every stored Deployment sits under its own namespace and name. */
  ghost predicate WellFormed(c: Cluster) {
    forall k :: k in c.deployments ==> NameOf(c.deployments[k].meta) == k
  }

  /** The outcome imposed on the next request, and the cluster with that entry consumed. */
  function Next(c: Cluster): (Option<Error>, Cluster) {
    if c.faults == [] then (None, c) else (c.faults[0], c.(faults := c.faults[1..]))
  }

  function ReadVpa(c: Cluster, key: NamespacedName): (r: (Result<VerticalPodAutoscalerController>, Cluster))
    ensures r.1 == Next(c).1
    ensures r.0.Ok? ==> key in c.vpas && r.0.value == c.vpas[key]
    ensures c.faults == [] ==> (r.0.Ok? <==> key in c.vpas) && (r.0.Err? ==> r.0.error == NotFound)
  {
    var (fault, after) := Next(c);
    if fault.Some? then (Err(fault.value), after)
    else if key in c.vpas then (Ok(c.vpas[key]), after)
    else (Err(NotFound), after)
  }

  function ReadDeployment(c: Cluster, key: NamespacedName): (r: (Result<Deployment>, Cluster))
    ensures r.1 == Next(c).1
    ensures r.0.Ok? ==> key in c.deployments && r.0.value == c.deployments[key]
    ensures c.faults == [] ==> (r.0.Ok? <==> key in c.deployments) && (r.0.Err? ==> r.0.error == NotFound)
  {
    var (fault, after) := Next(c);
    if fault.Some? then (Err(fault.value), after)
    else if key in c.deployments then (Ok(c.deployments[key]), after)
    else (Err(NotFound), after)
  }

  /** A create request: refused with AlreadyExists when the name is taken. */
  function CreateDeployment(c: Cluster, d: Deployment): (r: (Option<Error>, Cluster))
    ensures r.1.vpas == c.vpas && r.1.faults == Next(c).1.faults
    ensures r.1.writes == c.writes + [CreateRequest(d)]
    ensures r.0.None? <==> Next(c).0.None? && NameOf(d.meta) !in c.deployments
    ensures r.1.deployments == if r.0.None? then c.deployments[NameOf(d.meta) := d] else c.deployments
    ensures WellFormed(c) ==> WellFormed(r.1)
  {
    var (fault, after) := Next(c.(writes := c.writes + [CreateRequest(d)]));
    var key := NameOf(d.meta);
    if fault.Some? then (fault, after)
    else if key in c.deployments then (Some(AlreadyExists), after)
    else (None, after.(deployments := c.deployments[key := d]))
  }

  /** An update request: refused with NotFound when nothing is stored under the name. */
  function UpdateDeployment(c: Cluster, d: Deployment): (r: (Option<Error>, Cluster))
    ensures r.1.vpas == c.vpas && r.1.faults == Next(c).1.faults
    ensures r.1.writes == c.writes + [UpdateRequest(d)]
    ensures r.0.None? <==> Next(c).0.None? && NameOf(d.meta) in c.deployments
    ensures r.1.deployments == if r.0.None? then c.deployments[NameOf(d.meta) := d] else c.deployments
    ensures WellFormed(c) ==> WellFormed(r.1)
  {
    var (fault, after) := Next(c.(writes := c.writes + [UpdateRequest(d)]));
    var key := NameOf(d.meta);
    if fault.Some? then (fault, after)
    else if key !in c.deployments then (Some(NotFound), after)
    else (None, after.(deployments := c.deployments[key := d]))
  }

  /** Reading back a Deployment that was just created returns it. */
  lemma CreateThenRead(c: Cluster, d: Deployment)
    requires CreateDeployment(c, d).0.None?
    requires CreateDeployment(c, d).1.faults == []
    ensures ReadDeployment(CreateDeployment(c, d).1, NameOf(d.meta)).0 == Ok(d)
  {
  }

  /** The controller-runtime client, over the store above. */
  class Client {
    var vpas: map<NamespacedName, VerticalPodAutoscalerController>
    var deployments: map<NamespacedName, Deployment>
    var faults: seq<Option<Error>>
    var writes: seq<Write>

    function State(): Cluster
      reads this
    {
      Cluster(vpas, deployments, faults, writes)
    }

    constructor (init: Cluster)
      ensures State() == init
    {
      vpas, deployments, faults, writes := init.vpas, init.deployments, init.faults, init.writes;
    }

    method NextFault() returns (fault: Option<Error>)
      modifies this
      ensures (fault, State()) == Next(old(State()))
    {
      fault := None;
      if faults != [] {
        fault := faults[0];
        faults := faults[1..];
      }
    }

    method GetVpa(key: NamespacedName) returns (r: Result<VerticalPodAutoscalerController>)
      modifies this
      ensures (r, State()) == ReadVpa(old(State()), key)
    {
      var fault := NextFault();
      if fault.Some? {
        r := Err(fault.value);
      } else if key in vpas {
        r := Ok(vpas[key]);
      } else {
        r := Err(NotFound);
      }
    }

    method GetDeployment(key: NamespacedName) returns (r: Result<Deployment>)
      modifies this
      ensures (r, State()) == ReadDeployment(old(State()), key)
    {
      var fault := NextFault();
      if fault.Some? {
        r := Err(fault.value);
      } else if key in deployments {
        r := Ok(deployments[key]);
      } else {
        r := Err(NotFound);
      }
    }

    method Create(d: Deployment) returns (err: Option<Error>)
      modifies this
      ensures (err, State()) == CreateDeployment(old(State()), d)
    {
      writes := writes + [CreateRequest(d)];
      err := NextFault();
      var key := NameOf(d.meta);
      if err.None? {
        if key in deployments {
          err := Some(AlreadyExists);
        } else {
          deployments := deployments[key := d];
        }
      }
    }

    method Update(d: Deployment) returns (err: Option<Error>)
      modifies this
      ensures (err, State()) == UpdateDeployment(old(State()), d)
    {
      writes := writes + [UpdateRequest(d)];
      err := NextFault();
      var key := NameOf(d.meta);
      if err.None? {
        if key !in deployments {
          err := Some(NotFound);
        } else {
          deployments := deployments[key := d];
        }
      }
    }
  }

  /** The event recorder: an append-only log of the events it was asked to record. */
  class Recorder {
    var events: seq<Event>

    constructor ()
      ensures events == []
    {
      events := [];
    }

    method Record(involved: Option<ObjectReference>, eventType: EventType, reason: string)
      modifies this
      ensures events == old(events) + [Event(eventType, reason, involved)]
    {
      events := events + [Event(eventType, reason, involved)];
    }
  }
}

/** The scale manager: workloads in the restore scope are scaled down before a restore, and up again after it. The
    replica count is saved in a label meanwhile. */
module Scale {
  import opened Conditions
  import opened Decimal

  const SCOPE := "k8s.cloudogu.com/restore-scaledown-scope"
  const SAVED := "k8s.cloudogu.com/restore-scaledown-replicas"

  datatype Kind = Deployment | StatefulSet | ReplicaSet | ReplicationController

  /** What the workload's own controller reports. */
  datatype Report = Report(observedGeneration: int, replicas: int, ready: int, available: int, updated: int, unavailable: int)

  datatype Workload = Workload(kind: Kind, labels: map<string, string>, replicas: Option<int>, owned: bool, generation: int, report: Report)

  type Workloads = map<nat, Workload>

  datatype Op = Down | Up | Finalize

  predicate IsScoped(w: Workload) { SCOPE in w.labels }

  /** storedTargetReplicasIfPresent: a label that is no number is an error. */
  function Target(w: Workload): Option<int> { if SAVED in w.labels then ParseInt32(w.labels[SAVED]) else None }

  predicate IsUnreadable(w: Workload) { SAVED in w.labels && Target(w).None? }

  /** What one finished operation makes of a workload. A missing replica count is saved as 0, and a ReplicaSet with an
      owner is left to its owner. */
  function Applied(op: Op, w: Workload): Workload {
    if !IsScoped(w) then w
    else
      match op
      case Down =>
        if SAVED in w.labels || (w.kind == ReplicaSet && w.owned) then w
        else w.(labels := w.labels[SAVED := FormatInt(if w.replicas.Some? then w.replicas.value else 0)], replicas := Some(0))
      case Up => if Target(w).Some? then w.(replicas := Target(w)) else w
      case Finalize => w.(labels := w.labels - {SAVED})
  }

  /** Scaling down is about these: in the scope, and not left to an owner. */
  predicate IsLowered(w: Workload) { IsScoped(w) && !(w.kind == ReplicaSet && w.owned) }

  predicate GoesToZero(w: Workload) { SAVED !in w.labels || w.replicas == Some(0) }

  /** Scaling down brings a workload to zero exactly if no saved count is there yet, or it is at zero anyway. */
  lemma ZeroIff(w: Workload)
    requires IsLowered(w)
    ensures Applied(Down, w).replicas == Some(0) <==> GoesToZero(w)
  {
  }

  // ---- attempts, which may fail anywhere

  /** Every workload is as before, or the operation was applied to it. */
  predicate Partly(op: Op, before: Workloads, after: Workloads) {
    after.Keys == before.Keys && forall id :: id in before ==> after[id] == before[id] || after[id] == Applied(op, before[id])
  }

  predicate DoneFor(op: Op, kinds: set<Kind>, before: Workloads, after: Workloads) {
    after.Keys == before.Keys && forall id :: id in before && before[id].kind in kinds ==> after[id] == Applied(op, before[id])
  }

  const ALL_KINDS: set<Kind> := {Deployment, StatefulSet, ReplicaSet, ReplicationController}

  lemma EveryKind(kind: Kind)
    ensures kind in ALL_KINDS
  {
    match kind
    case Deployment =>
    case StatefulSet =>
    case ReplicaSet =>
    case ReplicationController =>
  }

  lemma AppliedTwice(op: Op, w: Workload)
    ensures Applied(op, Applied(op, w)) == Applied(op, w) && Applied(op, w).kind == w.kind
  {
    if op == Finalize { assert w.labels - {SAVED} - {SAVED} == w.labels - {SAVED}; }
  }

  lemma AttemptsCompose(op: Op, first: Workloads, middle: Workloads, last: Workloads, kinds: set<Kind>, kind: Kind)
    requires Partly(op, first, middle) && DoneFor(op, kinds, first, middle) && Partly(op, middle, last)
    ensures Partly(op, first, last) && DoneFor(op, kinds, first, last)
    ensures DoneFor(op, {kind}, middle, last) ==> DoneFor(op, kinds + {kind}, first, last)
  {
    forall id | id in first
      ensures last[id] == first[id] || last[id] == Applied(op, first[id])
      ensures first[id].kind in kinds ==> last[id] == Applied(op, first[id])
      ensures first[id].kind == kind && DoneFor(op, {kind}, middle, last) ==> last[id] == Applied(op, first[id])
    {
      AppliedTwice(op, first[id]);
    }
  }

  datatype Item = Item(id: nat, workload: Workload)

  /** The API of the cluster's workloads. A call may be refused, and an update may report an error although it took
      effect. */
  class Client {
    var workloads: Workloads

    constructor (workloads: Workloads)
      ensures this.workloads == workloads
    {
      this.workloads := workloads;
    }

    /** The workloads of a kind that carry all of these labels, in some order. */
    method List(kind: Kind, labels: set<string>) returns (ok: bool, items: seq<Item>)
      ensures ok ==> IsListing(items, kind, labels)
      ensures !ok ==> items == []
    {
      ok, items := *, [];
      if !ok { return; }
      var todo := workloads.Keys;
      while todo != {}
        invariant todo <= workloads.Keys
        invariant forall k :: 0 <= k < |items| ==> items[k].id in workloads.Keys - todo && items[k].workload == workloads[items[k].id]
        invariant forall k :: 0 <= k < |items| ==> items[k].workload.kind == kind && labels <= items[k].workload.labels.Keys
        invariant forall k, l :: 0 <= k < l < |items| ==> items[k].id != items[l].id
        invariant forall id :: id in workloads.Keys - todo && workloads[id].kind == kind && labels <= workloads[id].labels.Keys ==>
                    exists k :: 0 <= k < |items| && items[k].id == id
        decreases |todo|
      {
        var id :| id in todo;
        todo := todo - {id};
        if workloads[id].kind == kind && labels <= workloads[id].labels.Keys {
          ghost var was := items;
          items := items + [Item(id, workloads[id])];
          assert forall k :: 0 <= k < |was| ==> items[k] == was[k];
          assert items[|was|].id == id;
        }
      }
    }

    ghost predicate IsListing(items: seq<Item>, kind: Kind, labels: set<string>)
      reads this
    {
      (forall k :: 0 <= k < |items| ==>
         items[k].id in workloads && items[k].workload == workloads[items[k].id]
         && items[k].workload.kind == kind && labels <= items[k].workload.labels.Keys)
      && (forall k, l :: 0 <= k < l < |items| ==> items[k].id != items[l].id)
      && forall id :: id in workloads && workloads[id].kind == kind && labels <= workloads[id].labels.Keys ==>
           exists k :: 0 <= k < |items| && items[k].id == id
    }

    method Update(id: nat, w: Workload) returns (ok: bool)
      requires id in workloads
      modifies this
      ensures workloads == old(workloads)[id := w] || (!ok && workloads == old(workloads))
    {
      ok := *;
      var applied: bool := *;
      if ok || applied { workloads := workloads[id := w]; } else { assert workloads[id := workloads[id]] == workloads; }
    }
  }

  // ---- the manager

  class Manager {
    const client: Client

    constructor (client: Client)
      ensures this.client == client
    {
      this.client := client;
    }

    method ScaleDownWorkload(id: nat, w: Workload) returns (ok: bool)
      requires id in client.workloads && client.workloads[id] == w && IsScoped(w) && !(w.kind == ReplicaSet && w.owned)
      modifies client
      ensures client.workloads == old(client.workloads)[id := Applied(Down, w)] || (!ok && client.workloads == old(client.workloads))
    {
      if SAVED in w.labels {
        assert client.workloads[id := w] == client.workloads;
        return true;
      }
      var current := if w.replicas.Some? then w.replicas.value else 0;
      ok := client.Update(id, w.(labels := w.labels[SAVED := FormatInt(current)], replicas := Some(0)));
    }

    method ScaleUpWorkload(id: nat, w: Workload) returns (ok: bool)
      requires id in client.workloads && client.workloads[id] == w && IsScoped(w)
      modifies client
      ensures client.workloads == old(client.workloads)[id := Applied(Up, w)] || (!ok && client.workloads == old(client.workloads))
      ensures ok ==> !IsUnreadable(w)
    {
      assert client.workloads[id := w] == client.workloads;
      if SAVED !in w.labels { return true; }
      var target := ParseInt32(w.labels[SAVED]);
      if target.None? { return false; }
      if w.replicas == target { return true; }
      ok := client.Update(id, w.(replicas := target));
    }

    method RemoveStoredReplicasLabel(id: nat, w: Workload) returns (ok: bool)
      requires id in client.workloads && client.workloads[id] == w && IsScoped(w)
      modifies client
      ensures client.workloads == old(client.workloads)[id := Applied(Finalize, w)] || (!ok && client.workloads == old(client.workloads))
    {
      ok := client.Update(id, w.(labels := w.labels - {SAVED}));
    }

    method Apply(op: Op, id: nat, w: Workload) returns (ok: bool)
      requires id in client.workloads && client.workloads[id] == w && IsScoped(w)
      modifies client
      ensures client.workloads == old(client.workloads)[id := Applied(op, w)] || (!ok && client.workloads == old(client.workloads))
      ensures ok && op == Up ==> !IsUnreadable(w)
    {
      match op
      case Down =>
        if w.kind == ReplicaSet && w.owned {
          assert client.workloads[id := w] == client.workloads;
          return true;
        }
        ok := ScaleDownWorkload(id, w);
      case Up => ok := ScaleUpWorkload(id, w);
      case Finalize => ok := RemoveStoredReplicasLabel(id, w);
    }

    /** One kind of workloads: list them, then handle one after the other until one fails. */
    method ForEachWorkload(op: Op, kind: Kind) returns (ok: bool)
      modifies client
      ensures Partly(op, old(client.workloads), client.workloads)
      ensures ok ==> DoneFor(op, {kind}, old(client.workloads), client.workloads)
      ensures ok && op == Up ==> AllReadable({kind}, old(client.workloads))
    {
      var items;
      ok, items := client.List(kind, ListedLabels(op));
      if !ok { return; }
      ghost var was := client.workloads;
      for n := 0 to |items|
        invariant Reached(op, was, client.workloads, items, n)
        invariant forall k :: 0 <= k < |items| ==> items[k].id in was && items[k].workload == was[items[k].id] && IsScoped(items[k].workload)
        invariant op == Up ==> forall k :: 0 <= k < n ==> !IsUnreadable(items[k].workload)
      {
        ghost var before := client.workloads;
        ok := Apply(op, items[n].id, items[n].workload);
        if client.workloads != before { NextItem(op, was, before, items, n); }
        if !ok { return; }
        NextItem(op, was, before, items, n);
      }
      Listed(was, client.workloads, op, kind, items);
    }

    /** All four kinds in order; the first error ends the attempt. */
    method Run(op: Op) returns (ok: bool)
      modifies client
      ensures Partly(op, old(client.workloads), client.workloads)
      ensures ok ==> DoneFor(op, ALL_KINDS, old(client.workloads), client.workloads)
      ensures ok && op == Up ==> AllReadable(ALL_KINDS, old(client.workloads))
    {
      ghost var w0 := client.workloads;
      ok := ForEachWorkload(op, Deployment);
      if !ok { return; }
      ghost var w1 := client.workloads;
      ok := ForEachWorkload(op, StatefulSet);
      AttemptsCompose(op, w0, w1, client.workloads, {Deployment}, StatefulSet);
      StaysReadable(op, w0, w1);
      if !ok { return; }
      ghost var w2 := client.workloads;
      ok := ForEachWorkload(op, ReplicaSet);
      AttemptsCompose(op, w0, w2, client.workloads, {Deployment, StatefulSet}, ReplicaSet);
      StaysReadable(op, w0, w2);
      if !ok { return; }
      ghost var w3 := client.workloads;
      ok := ForEachWorkload(op, ReplicationController);
      AttemptsCompose(op, w0, w3, client.workloads, {Deployment, StatefulSet, ReplicaSet}, ReplicationController);
      StaysReadable(op, w0, w3);
    }

    /** After a success a workload is at zero, unless it carried a saved count already and was running nevertheless. */
    method ScaleDown() returns (ok: bool)
      modifies client
      ensures Attempted(Down, old(client.workloads), client.workloads, ok)
      ensures ok ==> forall id :: id in client.workloads && IsLowered(old(client.workloads)[id]) ==>
                       (client.workloads[id].replicas == Some(0) <==> GoesToZero(old(client.workloads)[id]))
    {
      ghost var was := client.workloads;
      ok := Run(Down);
      if ok {
        forall id | id in was && IsLowered(was[id]) ensures client.workloads[id].replicas == Some(0) <==> GoesToZero(was[id]) {
          EveryKind(was[id].kind);
          ZeroIff(was[id]);
        }
      }
    }

    method ScaleUp() returns (ok: bool)
      modifies client
      ensures Attempted(Up, old(client.workloads), client.workloads, ok)
    {
      ok := Run(Up);
    }

    method FinalizeScaleUp() returns (ok: bool)
      modifies client
      ensures Attempted(Finalize, old(client.workloads), client.workloads, ok)
    {
      ok := Run(Finalize);
    }

    method WorkloadsReady(kind: Kind) returns (ok: bool, ready: bool)
      ensures ok ==> (ready <==> forall id :: id in client.workloads && client.workloads[id].kind == kind && IsScoped(client.workloads[id]) ==>
                                              IsReady(client.workloads[id]))
      ensures ok ==> forall id :: id in client.workloads && client.workloads[id].kind == kind && IsScoped(client.workloads[id]) ==>
                                  ReadyTarget(client.workloads[id]).Some?
    {
      var items;
      ok, items := client.List(kind, {SCOPE});
      ready := true;
      if !ok { return; }
      for n := 0 to |items|
        invariant forall k :: 0 <= k < n ==> ReadyTarget(items[k].workload).Some?
        invariant ready <==> forall k :: 0 <= k < n ==> ReachedTarget(items[k].workload)
      {
        var w := items[n].workload;
        var target := ReadyTarget(w);
        if target.None? { return false, ready; }
        ready := ready && w.replicas.Some? && w.replicas == target && w.report.observedGeneration >= w.generation
                 && w.report.replicas == target.value && w.report.ready == target.value && w.report.available == target.value;
      }
      if ready && kind == Deployment {
        for n := 0 to |items|
          invariant forall k :: 0 <= k < n ==> IsReady(items[k].workload)
        {
          if items[n].workload.report.updated != items[n].workload.report.replicas || items[n].workload.report.unavailable != 0 {
            ready := false;
            break;
          }
        }
      }
    }

    /** Every kind is looked at, even when an earlier one is not ready yet. */
    method AreWorkloadsReady() returns (ok: bool, ready: bool)
      ensures ok ==> (ready <==> forall id :: id in client.workloads && IsScoped(client.workloads[id]) ==> IsReady(client.workloads[id]))
    {
      var deployments, statefulSets, replicaSets, controllers;
      ok, deployments := WorkloadsReady(Deployment);
      if !ok { return ok, false; }
      ok, statefulSets := WorkloadsReady(StatefulSet);
      if !ok { return ok, false; }
      ok, replicaSets := WorkloadsReady(ReplicaSet);
      if !ok { return ok, false; }
      ok, controllers := WorkloadsReady(ReplicationController);
      if !ok { return ok, false; }
      ready := deployments && statefulSets && replicaSets && controllers;
    }
  }

  /** What an attempt leaves behind; a successful ScaleUp could read every saved count. */
  predicate Attempted(op: Op, before: Workloads, after: Workloads, ok: bool) {
    Partly(op, before, after) && (ok ==> DoneFor(op, ALL_KINDS, before, after)) && (ok && op == Up ==> AllReadable(ALL_KINDS, before))
  }

  /** Scaling up does not touch the labels. */
  lemma StaysReadable(op: Op, before: Workloads, after: Workloads)
    requires Partly(op, before, after)
    ensures op == Up ==> forall kinds :: AllReadable(kinds, after) ==> AllReadable(kinds, before)
  {
  }

  // ---- readiness

  /** The replica count to wait for: the saved one, or without a label the desired one. */
  function ReadyTarget(w: Workload): Option<int> {
    if SAVED in w.labels then Target(w) else w.replicas
  }

  predicate ReachedTarget(w: Workload) {
    w.replicas.Some? && w.replicas == ReadyTarget(w)
    && w.report.observedGeneration >= w.generation && w.report.replicas == w.replicas.value
    && w.report.ready == w.replicas.value && w.report.available == w.replicas.value
  }

  /** A Deployment must also have finished its rollout. */
  predicate IsReady(w: Workload) {
    ReachedTarget(w)
    && (w.kind == Deployment ==> w.report.updated == w.report.replicas && w.report.unavailable == 0)
  }

  function ListedLabels(op: Op): set<string> { if op == Finalize then {SCOPE, SAVED} else {SCOPE} }

  predicate AllReadable(kinds: set<Kind>, m: Workloads) { forall id :: id in m && m[id].kind in kinds && IsScoped(m[id]) ==> !IsUnreadable(m[id]) }

  /** The first n items are done, the others untouched. */
  predicate Reached(op: Op, was: Workloads, now: Workloads, items: seq<Item>, n: nat)
    requires n <= |items|
  {
    now.Keys == was.Keys
    && (forall k :: 0 <= k < |items| ==> items[k].id in was)
    && (forall k, l :: 0 <= k < l < |items| ==> items[k].id != items[l].id)
    && (forall k :: 0 <= k < n ==> now[items[k].id] == Applied(op, was[items[k].id]))
    && (forall k :: n <= k < |items| ==> now[items[k].id] == was[items[k].id])
    && Partly(op, was, now)
  }

  lemma NextItem(op: Op, was: Workloads, now: Workloads, items: seq<Item>, n: nat)
    requires n < |items| && Reached(op, was, now, items, n)
    ensures Reached(op, was, now[items[n].id := Applied(op, was[items[n].id])], items, n + 1)
  {
  }

  lemma Listed(was: Workloads, now: Workloads, op: Op, kind: Kind, items: seq<Item>)
    requires Reached(op, was, now, items, |items|)
    requires forall id :: id in was && was[id].kind == kind && ListedLabels(op) <= was[id].labels.Keys ==>
               exists k :: 0 <= k < |items| && items[k].id == id
    ensures DoneFor(op, {kind}, was, now)
    ensures op == Up && (forall k :: 0 <= k < |items| ==> !IsUnreadable(was[items[k].id])) ==> AllReadable({kind}, was)
  {
    forall id | id in was && was[id].kind == kind ensures now[id] == Applied(op, was[id]) {
      var w := was[id];
      if ListedLabels(op) <= w.labels.Keys {
        var k :| 0 <= k < |items| && items[k].id == id;
      } else if IsScoped(w) {
        assert w.labels - {SAVED} == w.labels;
      }
    }
    if op == Up && forall k :: 0 <= k < |items| ==> !IsUnreadable(was[items[k].id]) {
      forall id | id in was && was[id].kind == kind && IsScoped(was[id]) ensures !IsUnreadable(was[id]) {
        var k :| 0 <= k < |items| && items[k].id == id;
      }
    }
  }
}

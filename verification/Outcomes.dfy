/** Where the results of a backup come from, in every run: each condition that decides something is written only in a pass
    that saw what it says. */
module Outcomes {
  import opened Conditions
  import opened Cluster
  import opened System
  import opened Invariant
  import opened Rely
  import opened Preservation
  import opened History
  import opened Progress
  import opened Safety
  import opened LeaseReads
  import B = BackupWorkflow

  /** The step writes other conditions to this backup. */
  ghost predicate Rewrites(s: World, action: Action, key: Key) {
    key.kind == Backup && key in s.api.objects && key in Step(s, action).api.objects
    && s.api.objects[key].uid == Step(s, action).api.objects[key].uid
    && s.api.objects[key].conditions != Step(s, action).api.objects[key].conditions
  }

  /** The worker of the backup makes the step: a status patch computed from what is stored. */
  lemma RewritingWorker(s: World, action: Action, key: Key)
    requires Inv(s) && Rewrites(s, action, key)
    ensures var o, l := s.api.objects[key], At(s, Reconciler(key));
            action.Call? && action.worker == Reconciler(key) && l.Busy? && l.pc.BackupAt?
            && BackupLocalOk(s.api, key, l.pc.b, l.copy, l.mark)
            && o.conditions == l.copy.conditions && o.started == l.copy.started && o.synced == l.copy.synced && o.uid == l.copy.uid
            && B.BackupRequest(l.pc.b, key, l.copy).PatchStatus?
            && Step(s, action).api.objects[key].conditions == B.BackupRequest(l.pc.b, key, l.copy).conditions
  {
    assert ObjectOk(s.api, key);
    StepOnObject(s, action, key);
    var w, l := Reconciler(key), At(s, Reconciler(key));
    assert WritesStatus(s, action, key);
    CallIsGuarded(s, w);
    assert LocalOk(s.api, w, l);
  }

  predicate Decides(before: Conditions, after: Conditions, t: Type) { !Decided(before, t) && Decided(after, t) }

  lemma DecidingPatch(pc: B.BackupPc, key: Key, copy: Object)
    requires B.BackupRequest(pc, key, copy).PatchStatus?
    ensures var after := B.BackupRequest(pc, key, copy).conditions;
            (Decides(copy.conditions, after, ProviderSucceeded) ==> pc.ResultPatch? || pc.SyncPatch?)
            && (Decides(copy.conditions, after, Succeeded) ==> pc.DonePatch? || pc.SyncPatch?)
            && (!IsTrue(copy.conditions, Canceled) && IsTrue(after, Canceled) ==> pc.CancelPatch?)
  {
  }

  lemma ResultsPatched(pc: B.BackupPc, key: Key, copy: Object, mark: Option<nat>, trail: seq<Exchange>)
    requires B.BackupRequest(pc, key, copy).PatchStatus? && BackupTrail(key, pc, copy, mark, trail)
    requires Decides(copy.conditions, B.BackupRequest(pc, key, copy).conditions, ProviderSucceeded)
    ensures SawResult(trail, key.name, IsTrue(B.BackupRequest(pc, key, copy).conditions, ProviderSucceeded))
  {
    DecidingPatch(pc, key, copy);
  }

  /** A provider result is stored only in a pass whose last observation was that result: Velero's backup completed, or in a
      failed phase. This holds for synced backups as well. */
  lemma ProviderResultIsObserved(run: seq<World>, actions: seq<Action>, n: nat, key: Key)
    requires IsRun(run, actions) && n < |actions| && key.kind == Backup && key in run[n].api.objects && key in run[n + 1].api.objects
    requires run[n].api.objects[key].uid == run[n + 1].api.objects[key].uid
    requires Decides(run[n].api.objects[key].conditions, run[n + 1].api.objects[key].conditions, ProviderSucceeded)
    ensures actions[n].Call? && actions[n].worker == Reconciler(key) && At(run[n], Reconciler(key)).Busy?
            && SawResult(At(run[n], Reconciler(key)).trail, key.name, IsTrue(run[n + 1].api.objects[key].conditions, ProviderSucceeded))
  {
    AllRemember(run, actions, n);
    RewritingWorker(run[n], actions[n], key);
    var l := At(run[n], Reconciler(key));
    assert TrailOk(Reconciler(key), l);
    ResultsPatched(l.pc.b, key, l.copy, l.mark, l.trail);
  }

  lemma EndPatched(a: Api, pc: B.BackupPc, key: Key, copy: Object)
    requires B.BackupRequest(pc, key, copy).PatchStatus? && BackupPcOk(a, key, pc, copy)
    requires Decides(copy.conditions, B.BackupRequest(pc, key, copy).conditions, Succeeded)
    ensures var c, c' := copy.conditions, B.BackupRequest(pc, key, copy).conditions;
            if copy.synced then ProviderSucceeded in c' && c'[Succeeded] == c'[ProviderSucceeded]
            else pc.DonePatch?
                 && (if Decided(c, ProviderSucceeded) then c'[Succeeded] == c[ProviderSucceeded]
                     else IsTrue(c, Canceled) && c'[Succeeded] == Condition(False, BackupCanceled))
  {
    DecidingPatch(pc, key, copy);
  }

  /** A run ends with the provider's result if there is one and as canceled otherwise, and the lease still names it exactly
      if the pass missed its own lease in an outdated read; a synced backup ends with the result that is stored beside it. */
  lemma EndFollowsResult(run: seq<World>, actions: seq<Action>, n: nat, key: Key)
    requires IsRun(run, actions) && n < |actions| && key.kind == Backup && key in run[n].api.objects && key in run[n + 1].api.objects
    requires run[n].api.objects[key].uid == run[n + 1].api.objects[key].uid
    requires Decides(run[n].api.objects[key].conditions, run[n + 1].api.objects[key].conditions, Succeeded)
    ensures var a, o, c' := run[n].api, run[n].api.objects[key], run[n + 1].api.objects[key].conditions;
            if o.synced then ProviderSucceeded in c' && c'[Succeeded] == c'[ProviderSucceeded]
            else (Names(a.lease, key, o.uid) <==> Misled(run, actions, n, Reconciler(key), o.uid))
                 && (if Decided(o.conditions, ProviderSucceeded) then c'[Succeeded] == o.conditions[ProviderSucceeded]
                     else IsTrue(o.conditions, Canceled) && c'[Succeeded] == Condition(False, BackupCanceled))
  {
    InvHolds(run, actions, n);
    RewritingWorker(run[n], actions[n], key);
    var l := At(run[n], Reconciler(key));
    EndPatched(run[n].api, l.pc.b, key, l.copy);
    if l.pc.b.DonePatch? { StillNamedIff(run, actions, n, Reconciler(key)); }
  }

  lemma CancelPatched(pc: B.BackupPc, key: Key, copy: Object, mark: Option<nat>, trail: seq<Exchange>)
    requires B.BackupRequest(pc, key, copy).PatchStatus? && BackupTrail(key, pc, copy, mark, trail)
    requires !IsTrue(copy.conditions, Canceled) && IsTrue(B.BackupRequest(pc, key, copy).conditions, Canceled)
    ensures SawExpiry(trail, key.name, copy.started)
  {
    DecidingPatch(pc, key, copy);
  }

  /** A backup is canceled only in a pass that saw the time window closed, and, if it had started, after that its provider
      backup missing, untouched or still running. */
  lemma CancellationMeansExpired(run: seq<World>, actions: seq<Action>, n: nat, key: Key)
    requires IsRun(run, actions) && n < |actions| && key.kind == Backup && key in run[n].api.objects && key in run[n + 1].api.objects
    requires run[n].api.objects[key].uid == run[n + 1].api.objects[key].uid
    requires !IsTrue(run[n].api.objects[key].conditions, Canceled) && IsTrue(run[n + 1].api.objects[key].conditions, Canceled)
    ensures actions[n].Call? && actions[n].worker == Reconciler(key) && At(run[n], Reconciler(key)).Busy?
            && SawExpiry(At(run[n], Reconciler(key)).trail, key.name, run[n].api.objects[key].started)
  {
    AllRemember(run, actions, n);
    RewritingWorker(run[n], actions[n], key);
    var l := At(run[n], Reconciler(key));
    assert TrailOk(Reconciler(key), l);
    CancelPatched(l.pc.b, key, l.copy, l.mark, l.trail);
  }
}

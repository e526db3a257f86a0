/** The two controllers that follow: the mirror of Velero's backups, and the garbage collection. */
module Followers {
  import opened Conditions
  import opened Cluster
  import opened System
  import opened Sessions
  import opened SyncWorkflows
  import T = Retention

  class VeleroBackupController {
    const session: Session
    const name: Name

    constructor (session: Session)
      requires session.worker.Mirror?
      ensures this.session == session && this.name == session.worker.name
    {
      this.session, this.name := session, session.worker.name;
    }

    ghost predicate Is(n: MirrorNext)
      reads session
    {
      session.Valid() && session.worker == Mirror(name) && session.InMirror(n)
    }

    method Call(ghost pc: MirrorPc, ghost seen: Option<Object>, q: Request) returns (r: Response)
      requires Is(MirrorGo(pc, seen)) && q == MirrorRequest(pc, name)
      modifies session
      ensures Is(MirrorStep(pc, seen, r)) && session.began == old(session.began)
    {
      r := session.MirrorCall(pc, seen, q);
    }

    /** A Velero backup gets a Backup, and a Velero backup that goes or is gone takes its Backup with it. */
    method Reconcile()
      requires session.Valid() && session.IsIdle() && session.worker == Mirror(name)
      modifies session
      ensures session.IsDone(old(session.history))
    {
      session.Begin();
      var found := session.MirrorCall(VeleroGet, None, GetProviderBackup(name));
      if found.NotFound? {
        DeleteBackupIfExists();
      } else if found.FoundProviderBackup? {
        if found.backup.deleting { DeleteBackupIfExists(); } else { EnsureBackupExists(); }
      }
    }

    method EnsureBackupExists()
      requires Is(MirrorGo(ExistsGet, None))
      modifies session
      ensures Is(MirrorStop) && session.began == old(session.began)
    {
      var backup := Call(ExistsGet, None, GetObject(Key(Kind.Backup, name)));
      if backup.NotFound? { var created := Call(MirrorCreate, None, CreateSynced(name)); }
    }

    /** Velero is always asked to delete its backup; the Backup of a canceled run stays as failure history. */
    method DeleteBackupIfExists()
      requires Is(MirrorGo(VictimGet, None))
      modifies session
      ensures Is(MirrorStop) && session.began == old(session.began)
    {
      var backup := Call(VictimGet, None, GetObject(Key(Kind.Backup, name)));
      if !backup.FoundObject? { return; }
      var requested := EnsureDeleteBackupRequestExists(backup.obj);
      if !requested { return; }
      if IsTrue(backup.obj.conditions, Canceled) { return; }
      var deleted := Call(MirrorDelete, Some(backup.obj), DeleteObject(Key(Kind.Backup, name)));
    }

    method EnsureDeleteBackupRequestExists(backup: Object) returns (ok: bool)
      requires Is(MirrorGo(RequestGet, Some(backup)))
      modifies session
      ensures Is(if ok then EnterDelete(Some(backup)) else MirrorStop) && session.began == old(session.began)
    {
      var request := Call(RequestGet, Some(backup), GetDeleteRequest(name));
      if request.Answer? { return true; }
      if !request.NotFound? { return false; }
      var created := Call(RequestCreate, Some(backup), CreateDeleteRequest(name));
      return created.Done? || created.Rejected?;
    }
  }

  /** A Backup as the collection lists it. */
  datatype Listed = Listed(backup: T.Backup, status: Legacy)

  /** Only a completed backup is handed to the strategy, each as often and in the order in which it was listed. */
  method FilterCompleted(backups: seq<Listed>) returns (completed: seq<T.Backup>)
    ensures forall b: T.Backup :: multiset(completed)[b] == multiset(backups)[Listed(b, Completed)]
  {
    completed := [];
    for n := 0 to |backups|
      invariant forall b: T.Backup :: multiset(completed)[b] == multiset(backups[..n])[Listed(b, Completed)]
    {
      assert backups[..n + 1] == backups[..n] + [backups[n]];
      if backups[n].status == Completed { completed := completed + [backups[n].backup]; }
    }
    assert backups[..|backups|] == backups;
  }

  class GarbageCollector {
    const session: Session

    constructor (session: Session)
      requires session.worker.Collector?
      ensures this.session == session
    {
      this.session := session;
    }

    /** The victims are what the strategy selects among the completed backups. A failing deletion does not keep the others
        from being deleted; `failures` counts them. */
    method CollectGarbage() returns (failures: nat)
      requires session.Valid() && session.IsIdle() && session.worker == Collector
      modifies session
      ensures session.IsDone(old(session.history))
    {
      failures := 0;
      session.Begin();
      var listed := session.CollectCall(None, ListCompleted);
      if !listed.FoundVictims? { return 1; }
      var victims := listed.victims;
      for n := 0 to |victims|
        invariant session.Valid() && session.worker == Collector && session.began == old(session.history) && session.called
        invariant session.InCollection(if n == |victims| then None else Some(victims[n..]))
      {
        var deleted := session.CollectCall(Some(victims[n..]), DeleteObject(Key(Kind.Backup, victims[n].name)));
        if !deleted.Done? { failures := failures + 1; }
        assert victims[n..][1..] == victims[n + 1..];
      }
    }
  }
}

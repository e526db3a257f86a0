/** One pass of the two controllers that only follow: the mirror of Velero's backups and the garbage
    collection. Both delete Backup resources, neither takes the lease. */
module SyncWorkflows {
  import opened Conditions
  import opened Cluster

  datatype MirrorPc = VeleroGet | ExistsGet | MirrorCreate | VictimGet | RequestGet | RequestCreate | MirrorDelete

  datatype MirrorNext = MirrorStop | MirrorGo(pc: MirrorPc, copy: Option<Object>)

  function MirrorRequest(pc: MirrorPc, name: Name): Request {
    match pc
    case VeleroGet => GetProviderBackup(name)
    case ExistsGet => GetObject(Key(Backup, name))
    case MirrorCreate => CreateSynced(name)
    case VictimGet => GetObject(Key(Backup, name))
    case RequestGet => GetDeleteRequest(name)
    case RequestCreate => CreateDeleteRequest(name)
    case MirrorDelete => DeleteObject(Key(Backup, name))
  }

  function MirrorStep(pc: MirrorPc, copy: Option<Object>, r: Response): MirrorNext {
    match pc
    case VeleroGet =>
      if r.NotFound? then MirrorGo(VictimGet, None)
      else if !r.FoundProviderBackup? then MirrorStop
      else if r.backup.deleting then MirrorGo(VictimGet, None)
      else MirrorGo(ExistsGet, None)
    case ExistsGet => if r.NotFound? then MirrorGo(MirrorCreate, None) else MirrorStop
    case VictimGet => if r.FoundObject? then MirrorGo(RequestGet, Some(r.obj)) else MirrorStop
    case RequestGet =>
      if r.NotFound? then MirrorGo(RequestCreate, copy) else if r.Answer? then EnterDelete(copy) else MirrorStop
    case RequestCreate => if r.Done? || r.Rejected? then EnterDelete(copy) else MirrorStop
    case _ => MirrorStop
  }

  /** A canceled backup stays as failure history. */
  function EnterDelete(copy: Option<Object>): MirrorNext {
    if copy.Some? && !IsTrue(copy.value.conditions, Canceled) then MirrorGo(MirrorDelete, copy) else MirrorStop
  }

  /** The collection goes on with the next victim even if a deletion fails. */
  function CollectRequest(victims: Option<seq<Victim>>): Request {
    if victims.Some? && victims.value != [] then DeleteObject(Key(Backup, victims.value[0].name)) else ListCompleted
  }

  function CollectStep(victims: Option<seq<Victim>>, r: Response): Option<seq<Victim>> {
    if victims.Some? && victims.value != [] then (if |victims.value| > 1 then Some(victims.value[1..]) else None)
    else if r.FoundVictims? && r.victims != [] then Some(r.victims)
    else None
  }
}

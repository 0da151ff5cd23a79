/** One reconciliation pass: its API calls as a control-flow graph, the pass
    that drives the graph, the imperative reconciler, and a closed form for
    passes in which every call is answered. */
module Reconcile {
  import opened Cluster

  // ---- API calls ----------------------------------------------------------

  datatype CallSite =
    | GetBackup
    | GetServiceAccount | CreateServiceAccount | UpdateServiceAccount
    | GetClusterRole | CreateClusterRole | UpdateClusterRole
    | GetBinding | CreateBinding | UpdateBinding
    | GetCronJob | CreateCronJob | UpdateCronJob
    | AddFinalizer | DeleteBinding | RemoveFinalizer

  /** What the caller hears.  A failed write may still have taken effect. */
  datatype Reply = Answered | Failed(applied: bool)

  /** One reply for each call site: a pass visits a site at most once. */
  type Api = CallSite -> Reply

  datatype Result = Done | Requeue | Error

  datatype Next = Jump(site: CallSite) | Return(result: Result)

  datatype Outcome = Outcome(c: Cluster, next: Next)

  /** A read: an error ends the pass, otherwise presence picks the branch. */
  function Read(c: Cluster, found: bool, reply: Reply, ifFound: CallSite, ifMissing: CallSite): Outcome {
    if reply.Failed? then Outcome(c, Return(Error))
    else Outcome(c, Jump(if found then ifFound else ifMissing))
  }

  /** A write whose error ends the pass; None is a refusal by the API server. */
  function Write(c: Cluster, after: Option<Cluster>, reply: Reply, next: Next): Outcome {
    if after.None? then Outcome(c, Return(Error))
    else if reply.Answered? then Outcome(after.value, next)
    else Outcome(if reply.applied then after.value else c, Return(Error))
  }

  /** A write whose error is discarded. */
  function WriteAndForget(c: Cluster, after: Option<Cluster>, reply: Reply, next: CallSite): Outcome {
    Outcome(if after.None? || reply == Failed(false) then c else after.value, Jump(next))
  }

  function When(condition: bool, c: Cluster): Option<Cluster> {
    if condition then Some(c) else None
  }

  /** The first call of handleFinalizer, decided on the fetched Backup alone. */
  function FinalizerEntry(b: Backup): Next {
    if !b.deleting then
      if FINALIZER !in b.finalizers then Jump(AddFinalizer) else Return(Done)
    else
    if FINALIZER in b.finalizers then Jump(DeleteBinding) else Return(Done)
  }

  /** The Backup is written back with the version it was read at. */
  predicate Unchanged(c: Cluster, k: Key, b: Backup) {
    k in c.backups && c.backups[k] == b
  }

  /** One API call of a pass on request k that fetched b.  Updates of a role or
      a binding may create it, as the API server allows for those kinds. */
  function Call(c: Cluster, site: CallSite, k: Key, b: Backup, reply: Reply): Outcome
    requires site != GetBackup
  {
    match site
    case GetServiceAccount =>
      Read(c, k.ns in c.accounts, reply, UpdateServiceAccount, CreateServiceAccount)
    case CreateServiceAccount =>
      Write(c, When(k.ns !in c.accounts, PutServiceAccount(c, k, b)), reply, Return(Requeue))
    case UpdateServiceAccount =>
      WriteAndForget(c, When(k.ns in c.accounts, PutServiceAccount(c, k, b)), reply, GetClusterRole)
    case GetClusterRole =>
      Read(c, c.role.Some?, reply, UpdateClusterRole, CreateClusterRole)
    case CreateClusterRole =>
      Write(c, When(c.role.None?, PutClusterRole(c)), reply, Return(Requeue))
    case UpdateClusterRole =>
      WriteAndForget(c, Some(PutClusterRole(c)), reply, GetBinding)
    case GetBinding =>
      Read(c, BindingName(k.ns) in c.bindings, reply, UpdateBinding, CreateBinding)
    case CreateBinding =>
      Write(c, When(BindingName(k.ns) !in c.bindings, PutClusterRoleBinding(c, k.ns)), reply, Return(Requeue))
    case UpdateBinding =>
      WriteAndForget(c, When(BindingWritable(c, k.ns), PutClusterRoleBinding(c, k.ns)), reply, GetCronJob)
    case GetCronJob =>
      Read(c, LookupCronKey(k) in c.cronJobs, reply, UpdateCronJob, CreateCronJob)
    case CreateCronJob =>
      Write(c, When(RenderedCronKey(k) !in c.cronJobs, PutCronJob(c, k, b)), reply, Return(Requeue))
    case UpdateCronJob =>
      Write(c, When(RenderedCronKey(k) in c.cronJobs, PutCronJob(c, k, b)), reply, FinalizerEntry(b))
    case AddFinalizer =>
      Write(c, When(Unchanged(c, k, b), PutFinalizer(c, k, b)), reply, Return(Done))
    case DeleteBinding =>
      Write(c, When(BindingName(k.ns) in c.bindings, DropBinding(c, k.ns)), reply, Jump(RemoveFinalizer))
    case RemoveFinalizer =>
      Write(c, When(Unchanged(c, k, b), DropFinalizer(c, k, b)), reply, Return(Done))
  }

  /** Calls only ever jump forward. */
  function Remaining(site: CallSite): nat {
    match site
    case GetBackup => 15
    case GetServiceAccount => 14
    case CreateServiceAccount => 13
    case UpdateServiceAccount => 12
    case GetClusterRole => 11
    case CreateClusterRole => 10
    case UpdateClusterRole => 9
    case GetBinding => 8
    case CreateBinding => 7
    case UpdateBinding => 6
    case GetCronJob => 5
    case CreateCronJob => 4
    case UpdateCronJob => 3
    case AddFinalizer => 2
    case DeleteBinding => 1
    case RemoveFinalizer => 0
  }

  datatype PassResult = PassResult(c: Cluster, result: Result)

  function Drive(c: Cluster, site: CallSite, k: Key, b: Backup, api: Api): PassResult
    requires site != GetBackup
    decreases Remaining(site)
  {
    var o := Call(c, site, k, b, api(site));
    match o.next
    case Return(result) => PassResult(o.c, result)
    case Jump(next) => Drive(o.c, next, k, b, api)
  }

  /** What is left of a pass once all four dependents are in place. */
  function Finish(c: Cluster, k: Key, b: Backup, api: Api): PassResult {
    match FinalizerEntry(b)
    case Return(result) => PassResult(c, result)
    case Jump(site) => Drive(c, site, k, b, api)
  }

  /** A whole uninterrupted pass on request k under the replies of api. */
  function Pass(c: Cluster, k: Key, api: Api): PassResult {
    if api(GetBackup).Failed? then PassResult(c, Error)
    else if k !in c.backups then PassResult(c, Done)
    else Drive(c, GetServiceAccount, k, c.backups[k], api)
  }

  // ---- the reconciler ------------------------------------------------------

  datatype GetResult = Found | NotFound | GetFailed

  /** BackupReconciler with the API server's store as its only field. */
  class BackupReconciler {
    var cluster: Cluster

    constructor (c: Cluster)
      ensures cluster == c
    {
      cluster := c;
    }

    method Get(present: bool, reply: Reply) returns (r: GetResult)
      ensures r == if reply.Failed? then GetFailed else if present then Found else NotFound
    {
      if reply.Failed? { return GetFailed; }
      return if present then Found else NotFound;
    }

    /** Issues a write and reports whether it returned an error. */
    method Put(after: Option<Cluster>, reply: Reply) returns (err: bool)
      modifies this
      ensures err <==> after.None? || reply.Failed?
      ensures cluster == if after.None? || reply == Failed(false) then old(cluster) else after.value
    {
      err := after.None? || reply.Failed?;
      if after.Some? && reply != Failed(false) {
        cluster := after.value;
      }
    }

    /** Each of the four Ensure methods either stops the pass with a result or
        lets it continue at the next dependent's read. */
    ghost predicate Continues(before: Cluster, at: CallSite, after: Cluster, stop: Option<Result>, next: CallSite,
                              k: Key, b: Backup, api: Api)
      requires at != GetBackup && next != GetBackup
    {
      Drive(before, at, k, b, api) ==
      if stop.None? then Drive(after, next, k, b, api) else PassResult(after, stop.value)
    }

    method EnsureServiceAccount(k: Key, b: Backup, api: Api) returns (stop: Option<Result>)
      modifies this
      ensures Continues(old(cluster), GetServiceAccount, cluster, stop, GetClusterRole, k, b, api)
    {
      var got := Get(k.ns in cluster.accounts, api(GetServiceAccount));
      match got {
        case NotFound =>
          var err := Put(When(k.ns !in cluster.accounts, PutServiceAccount(cluster, k, b)), api(CreateServiceAccount));
          return Some(if err then Error else Requeue);
        case GetFailed => return Some(Error);
        case Found =>
          var _ := Put(When(k.ns in cluster.accounts, PutServiceAccount(cluster, k, b)), api(UpdateServiceAccount));
          return None;
      }
    }

    method EnsureClusterRole(k: Key, b: Backup, api: Api) returns (stop: Option<Result>)
      modifies this
      ensures Continues(old(cluster), GetClusterRole, cluster, stop, GetBinding, k, b, api)
    {
      var got := Get(cluster.role.Some?, api(GetClusterRole));
      match got {
        case NotFound =>
          var err := Put(When(cluster.role.None?, PutClusterRole(cluster)), api(CreateClusterRole));
          return Some(if err then Error else Requeue);
        case GetFailed => return Some(Error);
        case Found =>
          var _ := Put(Some(PutClusterRole(cluster)), api(UpdateClusterRole));
          return None;
      }
    }

    method EnsureBinding(k: Key, b: Backup, api: Api) returns (stop: Option<Result>)
      modifies this
      ensures Continues(old(cluster), GetBinding, cluster, stop, GetCronJob, k, b, api)
    {
      var name := BindingName(k.ns);
      var got := Get(name in cluster.bindings, api(GetBinding));
      match got {
        case NotFound =>
          var err := Put(When(name !in cluster.bindings, PutClusterRoleBinding(cluster, k.ns)), api(CreateBinding));
          return Some(if err then Error else Requeue);
        case GetFailed => return Some(Error);
        case Found =>
          var _ := Put(When(BindingWritable(cluster, k.ns), PutClusterRoleBinding(cluster, k.ns)), api(UpdateBinding));
          return None;
      }
    }

    /** Alone among the four, a failing update of the CronJob stops the pass. */
    method EnsureCronJob(k: Key, b: Backup, api: Api) returns (stop: Option<Result>)
      modifies this
      ensures Drive(old(cluster), GetCronJob, k, b, api) ==
              if stop.Some? then PassResult(cluster, stop.value) else Finish(cluster, k, b, api)
    {
      var got := Get(LookupCronKey(k) in cluster.cronJobs, api(GetCronJob));
      match got {
        case NotFound =>
          var err := Put(When(RenderedCronKey(k) !in cluster.cronJobs, PutCronJob(cluster, k, b)), api(CreateCronJob));
          return Some(if err then Error else Requeue);
        case GetFailed => return Some(Error);
        case Found =>
          var err := Put(When(RenderedCronKey(k) in cluster.cronJobs, PutCronJob(cluster, k, b)), api(UpdateCronJob));
          return if err then Some(Error) else None;
      }
    }

    method Reconcile(req: Key, api: Api) returns (result: Result)
      modifies this
      ensures PassResult(cluster, result) == Pass(old(cluster), req, api)
    {
      var got := Get(req in cluster.backups, api(GetBackup));
      if got.GetFailed? { return Error; }
      if got.NotFound? { return Done; }
      var b := cluster.backups[req];
      var stop := EnsureServiceAccount(req, b, api);
      if stop.Some? { return stop.value; }
      stop := EnsureClusterRole(req, b, api);
      if stop.Some? { return stop.value; }
      stop := EnsureBinding(req, b, api);
      if stop.Some? { return stop.value; }
      stop := EnsureCronJob(req, b, api);
      if stop.Some? { return stop.value; }
      var err := HandleFinalizer(req, b, api);
      return if err then Error else Done;
    }

    method HandleFinalizer(k: Key, b: Backup, api: Api) returns (err: bool)
      modifies this
      ensures PassResult(cluster, if err then Error else Done) == Finish(old(cluster), k, b, api)
    {
      if !b.deleting {
        if FINALIZER !in b.finalizers {
          err := Put(When(Unchanged(cluster, k, b), PutFinalizer(cluster, k, b)), api(AddFinalizer));
          return;
        }
        return false;
      }
      if FINALIZER in b.finalizers {
        err := DeleteExternalResources(k, api);
        if err { return; }
        assert Drive(old(cluster), DeleteBinding, k, b, api) == Drive(cluster, RemoveFinalizer, k, b, api);
        err := Put(When(Unchanged(cluster, k, b), DropFinalizer(cluster, k, b)), api(RemoveFinalizer));
        return;
      }
      return false;
    }

    /** A binding that is already gone is an error here: NotFound is not ignored. */
    method DeleteExternalResources(k: Key, api: Api) returns (err: bool)
      modifies this
      ensures err <==> BindingName(k.ns) !in old(cluster).bindings || api(DeleteBinding).Failed?
      ensures cluster == if BindingName(k.ns) !in old(cluster).bindings || api(DeleteBinding) == Failed(false)
                         then old(cluster) else DropBinding(old(cluster), k.ns)
    {
      err := Put(When(BindingName(k.ns) in cluster.bindings, DropBinding(cluster, k.ns)), api(DeleteBinding));
    }
  }

  // ---- passes without API errors -------------------------------------------

  function Reliable(): Api {
    (site: CallSite) => Answered
  }

  datatype Stage = Absent | NeedAccount | NeedRole | NeedBinding | NeedCron | Full

  /** The first dependent that a pass on k finds missing. */
  function StageOf(c: Cluster, k: Key): Stage {
    if k !in c.backups then Absent
    else if k.ns !in c.accounts then NeedAccount
    else if c.role.None? then NeedRole
    else if BindingName(k.ns) !in c.bindings then NeedBinding
    else if LookupCronKey(k) !in c.cronJobs then NeedCron
    else Full
  }

  function AfterAccount(c: Cluster, k: Key): Cluster
    requires k in c.backups
  {
    PutServiceAccount(c, k, c.backups[k])
  }

  function AfterRole(c: Cluster, k: Key): Cluster
    requires k in c.backups
  {
    PutClusterRole(AfterAccount(c, k))
  }

  function AfterBinding(c: Cluster, k: Key): Cluster
    requires k in c.backups
  {
    if BindingWritable(c, k.ns) then PutClusterRoleBinding(AfterRole(c, k), k.ns) else AfterRole(c, k)
  }

  function AfterCron(c: Cluster, k: Key): Cluster
    requires k in c.backups
  {
    PutCronJob(AfterBinding(c, k), k, c.backups[k])
  }

  function CleanEnd(c: Cluster, k: Key, b: Backup): Cluster {
    match FinalizerEntry(b)
    case Return(_) => c
    case Jump(AddFinalizer) => PutFinalizer(c, k, b)
    case Jump(_) => DropFinalizer(DropBinding(c, k.ns), k, b)
  }

  function AfterFinalizer(c: Cluster, k: Key): Cluster
    requires k in c.backups
  {
    CleanEnd(AfterCron(c, k), k, c.backups[k])
  }

  /** What a pass does when every call is answered. */
  function CleanPass(c: Cluster, k: Key): PassResult {
    match StageOf(c, k)
    case Absent => PassResult(c, Done)
    case NeedAccount => PassResult(AfterAccount(c, k), Requeue)
    case NeedRole => PassResult(AfterRole(c, k), Requeue)
    case NeedBinding => PassResult(AfterBinding(c, k), Requeue)
    case NeedCron =>
      if RenderedCronKey(k) in c.cronJobs then PassResult(AfterBinding(c, k), Error)
      else PassResult(AfterCron(c, k), Requeue)
    case Full =>
      if RenderedCronKey(k) !in c.cronJobs then PassResult(AfterBinding(c, k), Error)
      else PassResult(AfterFinalizer(c, k), Done)
  }

  /** The closed form is the call-by-call pass with no failing call. */
  lemma CleanPassIsPass(c: Cluster, k: Key)
    ensures Pass(c, k, Reliable()) == CleanPass(c, k)
  {
    hide Drive, BindingName, CronName;
    if k in c.backups {
      var b := c.backups[k];
      CleanAccount(c, k, b);
      CleanRole(AfterAccount(c, k), k, b);
      CleanBinding(AfterRole(c, k), k, b);
      CleanTail(AfterBinding(c, k), k, b);
    }
  }

  lemma CleanAccount(c: Cluster, k: Key, b: Backup)
    ensures var c' := PutServiceAccount(c, k, b);
            Drive(c, GetServiceAccount, k, b, Reliable()) ==
            if k.ns in c.accounts then Drive(c', GetClusterRole, k, b, Reliable()) else PassResult(c', Requeue)
  {
  }

  lemma CleanRole(c: Cluster, k: Key, b: Backup)
    ensures var c' := PutClusterRole(c);
            Drive(c, GetClusterRole, k, b, Reliable()) ==
            if c.role.Some? then Drive(c', GetBinding, k, b, Reliable()) else PassResult(c', Requeue)
  {
  }

  lemma CleanBinding(c: Cluster, k: Key, b: Backup)
    ensures var c' := if BindingWritable(c, k.ns) then PutClusterRoleBinding(c, k.ns) else c;
            Drive(c, GetBinding, k, b, Reliable()) ==
            if BindingName(k.ns) in c.bindings then Drive(c', GetCronJob, k, b, Reliable()) else PassResult(c', Requeue)
  {
  }

  lemma CleanTail(c: Cluster, k: Key, b: Backup)
    requires Unchanged(c, k, b) && BindingName(k.ns) in c.bindings
    ensures var c' := PutCronJob(c, k, b);
            Drive(c, GetCronJob, k, b, Reliable()) ==
            if LookupCronKey(k) in c.cronJobs then
              if RenderedCronKey(k) in c.cronJobs then PassResult(CleanEnd(c', k, b), Done) else PassResult(c, Error)
            else
            if RenderedCronKey(k) in c.cronJobs then PassResult(c, Error) else PassResult(c', Requeue)
  {
    hide CleanEnd, BindingName, CronName;
    if LookupCronKey(k) in c.cronJobs && RenderedCronKey(k) in c.cronJobs {
      var api := Reliable();
      assert Drive(c, GetCronJob, k, b, api) == Drive(c, UpdateCronJob, k, b, api);
      assert Drive(c, UpdateCronJob, k, b, api) == Finish(PutCronJob(c, k, b), k, b, api);
      CleanFinish(PutCronJob(c, k, b), k, b);
    }
  }

  lemma CleanFinish(c: Cluster, k: Key, b: Backup)
    requires Unchanged(c, k, b) && BindingName(k.ns) in c.bindings
    ensures Finish(c, k, b, Reliable()) == PassResult(CleanEnd(c, k, b), Done)
  {
    if FinalizerEntry(b) == Jump(DeleteBinding) {
      var api := Reliable();
      assert Drive(c, DeleteBinding, k, b, api) == Drive(DropBinding(c, k.ns), RemoveFinalizer, k, b, api);
    }
  }
}

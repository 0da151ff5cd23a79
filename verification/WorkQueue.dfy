/** The controller's work queue, its worker that makes one API call at a time, the
    garbage collector that comes by between any two calls, and the measure by
    which all this ends. */
module WorkQueue {
  import opened Cluster
  import opened Reconcile
  import opened Predicates
  import I = Interleaving

  // ---- from writes to requests -------------------------------------------------

  /** Does an object whose generation goes from before to after (None: absent)
      cause an event that the filter lets through? */
  predicate Notifies(before: Option<nat>, after: Option<nat>) {
    match (before, after)
    case (None, None) => false
    case (None, Some(_)) => EventFilter(Create(true))
    case (Some(_), None) => EventFilter(Delete(false))
    case (Some(g), Some(g')) => EventFilter(Update(g, g'))
  }

  function BackupGeneration(c: Cluster, k: Key): Option<nat> {
    if k in c.backups then Some(c.backups[k].generation) else None
  }

  /** ServiceAccounts carry no generation. */
  function AccountGeneration(c: Cluster, ns: string): Option<nat> {
    if ns in c.accounts then Some(0) else None
  }

  function CronGeneration(c: Cluster, at: Key): Option<nat> {
    if at in c.cronJobs then Some(c.cronJobs[at].generation) else None
  }

  function OwnerKeys(ns: string, owner: Option<OwnerRef>): set<Key> {
    if owner.Some? then {Key(ns, owner.value.name)} else {}
  }

  function AccountOwners(c: Cluster, ns: string): set<Key> {
    if ns in c.accounts then OwnerKeys(ns, c.accounts[ns].owner) else {}
  }

  function CronOwners(c: Cluster, at: Key): set<Key> {
    if at in c.cronJobs then OwnerKeys(at.ns, c.cronJobs[at].owner) else {}
  }

  function WokenByBackups(c: Cluster, c': Cluster): set<Key> {
    set k | k in c.backups.Keys + c'.backups.Keys && Notifies(BackupGeneration(c, k), BackupGeneration(c', k))
  }

  function WokenByAccounts(c: Cluster, c': Cluster): set<Key> {
    set ns, k | ns in c.accounts.Keys + c'.accounts.Keys
                && Notifies(AccountGeneration(c, ns), AccountGeneration(c', ns))
                && k in AccountOwners(c, ns) + AccountOwners(c', ns) :: k
  }

  function WokenByCronJobs(c: Cluster, c': Cluster): set<Key> {
    set at, k | at in c.cronJobs.Keys + c'.cronJobs.Keys
                && Notifies(CronGeneration(c, at), CronGeneration(c', at))
                && k in CronOwners(c, at) + CronOwners(c', at) :: k
  }

  /** The requests caused by the step from c to c': the Backup itself, or the
      controller owners, before and after, of a ServiceAccount or a CronJob.  Roles
      and bindings have no owner and so never cause one. */
  function Woken(c: Cluster, c': Cluster): set<Key> {
    WokenByBackups(c, c') + WokenByAccounts(c, c') + WokenByCronJobs(c, c')
  }

  /** Who is woken, written out: a Backup that appears, disappears or changes its
      generation, and the owner, before or after, of a ServiceAccount that appears or
      disappears, or of a CronJob that does so or changes its generation. */
  lemma WokenWrittenOut(c: Cluster, c': Cluster, k: Key)
    ensures k in Woken(c, c') <==>
            || BackupGeneration(c, k) != BackupGeneration(c', k)
            || (exists ns :: (ns in c.accounts) != (ns in c'.accounts)
                             && k in AccountOwners(c, ns) + AccountOwners(c', ns))
            || (exists at :: CronGeneration(c, at) != CronGeneration(c', at)
                             && k in CronOwners(c, at) + CronOwners(c', at))
  {
    assert forall a, b :: Notifies(a, b) <==> a != b;
    assert forall ns ::
        (ns in c.accounts) != (ns in c'.accounts) <==> AccountGeneration(c, ns) != AccountGeneration(c', ns);
    if k in WokenByAccounts(c, c') {
      var ns :| Notifies(AccountGeneration(c, ns), AccountGeneration(c', ns))
                && k in AccountOwners(c, ns) + AccountOwners(c', ns);
    }
    if k in WokenByCronJobs(c, c') {
      var at :| Notifies(CronGeneration(c, at), CronGeneration(c', at)) && k in CronOwners(c, at) + CronOwners(c', at);
    }
  }

  /** What the collector may take: an object whose controller was a Backup that is
      gone, also if another one has its name by now. */
  lemma DeadOwnerWrittenOut(s: System, ns: string)
    requires ns in s.c.accounts && s.c.accounts[ns].owner.Some?
    ensures var ref := s.c.accounts[ns].owner.value;
            Possible(s, CollectAccount(ns)) <==>
            Key(ns, ref.name) in s.c.backups ==> s.c.backups[Key(ns, ref.name)].uid != ref.uid
  {
  }

  // ---- the system --------------------------------------------------------------------

  datatype System = System(c: Cluster, queue: set<Key>, worker: I.Worker)

  datatype Action = Take(k: Key) | Proceed | CollectAccount(ns: string) | CollectCronJob(at: Key)

  /** The idle worker may take any queued request; the busy one makes its next
      call; the garbage collector may at any time remove any object whose owner is
      gone. */
  predicate Possible(s: System, a: Action) {
    match a
    case Take(k) => s.worker.Idle? && k in s.queue
    case Proceed => s.worker.At? && s.worker.site != GetBackup
    case CollectAccount(ns) => ns in s.c.accounts && DeadOwner(s.c, ns, s.c.accounts[ns].owner)
    case CollectCronJob(at) => at in s.c.cronJobs && DeadOwner(s.c, at.ns, s.c.cronJobs[at].owner)
  }

  /** The request comes back if the pass has ended with an error or asks for it. */
  function Again(next: Next, k: Key): set<Key> {
    if next.Return? && !next.result.Done? then {k} else {}
  }

  function Onwards(next: Next, k: Key, b: Backup): I.Worker {
    if next.Jump? then I.At(next.site, k, b) else I.Idle
  }

  function After(s: System, a: Action): System
    requires Possible(s, a)
  {
    match a
    case Take(k) => System(s.c, s.queue - {k}, I.Fetch(s.c, k))
    case Proceed =>
      var k, b := s.worker.k, s.worker.b;
      var o := Call(s.c, s.worker.site, k, b, Answered);
      System(o.c, s.queue + Woken(s.c, o.c) + Again(o.next, k), Onwards(o.next, k, b))
    case CollectAccount(ns) =>
      var c' := s.c.(accounts := s.c.accounts - {ns});
      System(c', s.queue + Woken(s.c, c'), s.worker)
    case CollectCronJob(at) =>
      var c' := s.c.(cronJobs := s.c.cronJobs - {at});
      System(c', s.queue + Woken(s.c, c'), s.worker)
  }

  ghost predicate Execution(run: seq<System>, actions: seq<Action>) {
    && |run| == |actions| + 1
    && forall i :: 0 <= i < |actions| ==> Possible(run[i], actions[i]) && run[i + 1] == After(run[i], actions[i])
  }

  /** Nothing is left to do, for the worker or for the garbage collector. */
  ghost predicate Quiescent(s: System) {
    forall a :: !Possible(s, a)
  }

  /** Every action is a move of the machine of Interleaving, with every call
      answered and the collector as part of the environment. */
  function AsMove(s: System, a: Action): I.Move
    requires Possible(s, a)
  {
    match a
    case Take(k) => I.Begin(k)
    case Proceed => I.Issue(Answered)
    case _ => I.Environment(After(s, a).c)
  }

  lemma ActionsAreMoves(s: System, a: Action)
    requires Possible(s, a)
    ensures var state, m, s' := I.State(s.c, s.worker), AsMove(s, a), After(s, a);
            I.Enabled(state, m) && I.Step(state, m) == I.State(s'.c, s'.worker)
  {
    hide Call;
  }

  /** The premise of quiescence: every Backup is in "default". */
  predicate Calm(c: Cluster) {
    forall k | k in c.backups :: k.ns == DEFAULT_NAMESPACE
  }

  /** What the worker can rely on while nobody but the collector interferes. */
  predicate Coherent(s: System) {
    s.worker.At? ==>
      var c, site, k, b := s.c, s.worker.site, s.worker.k, s.worker.b;
      && site != GetBackup && Unchanged(c, k, b) && k.ns == DEFAULT_NAMESPACE
      && (site == CreateServiceAccount ==> DEFAULT_NAMESPACE !in c.accounts)
      && (site == CreateClusterRole ==> c.role.None?)
      && (Remaining(site) <= 9 ==> c.role.Some?)
      && (site in {CreateBinding, RemoveFinalizer} ==> BindingName(DEFAULT_NAMESPACE) !in c.bindings)
      && (0 < Remaining(site) <= 6 ==> BindingName(DEFAULT_NAMESPACE) in c.bindings)
      && (site == CreateCronJob ==> RenderedCronKey(k) !in c.cronJobs)
      && (site == AddFinalizer ==> !b.deleting)
      && (site in {DeleteBinding, RemoveFinalizer} ==> b.deleting && FINALIZER in b.finalizers)
  }

  // ---- the measure -----------------------------------------------------------------------

  /** Deleting Backups that wait for our finalizer to go. */
  function Waiting(c: Cluster): set<Key> {
    set k | k in c.backups && c.backups[k].deleting && FINALIZER in c.backups[k].finalizers
  }

  function DeadAccounts(c: Cluster): set<string> {
    set ns | ns in c.accounts && DeadOwner(c, ns, c.accounts[ns].owner)
  }

  function DeadCronJobs(c: Cluster): set<Key> {
    set at | at in c.cronJobs && DeadOwner(c, at.ns, c.cronJobs[at].owner)
  }

  /** A binding that the worker has just deleted does not count as missing yet. */
  function MissingShared(s: System): nat {
    (if DEFAULT_NAMESPACE in s.c.accounts then 0 else 1)
    + (if s.c.role.Some? then 0 else 1)
    + (if BindingName(DEFAULT_NAMESPACE) in s.c.bindings || IsAt(s.worker, RemoveFinalizer) then 0 else 1)
  }

  predicate IsAt(w: I.Worker, site: CallSite) {
    w.At? && w.site == site
  }

  function Cronless(c: Cluster): set<Key> {
    set k | k in c.backups && RenderedCronKey(k) !in c.cronJobs
  }

  function Stale(c: Cluster): set<Key> {
    set k | k in c.backups && RenderedCronKey(k) in c.cronJobs
            && c.cronJobs[RenderedCronKey(k)].spec != RenderCronSpec(k, c.backups[k])
  }

  /** The CronJob went after the worker has seen it: its update is going to fail. */
  predicate Failing(s: System) {
    IsAt(s.worker, UpdateCronJob) && RenderedCronKey(s.worker.k) !in s.c.cronJobs
  }

  /** Waiting Backups, objects of the kinds that can have an owner (accounts and
      CronJobs), those of them whose owner is dead, missing dependents, stale
      CronJobs, requests in the queue or in work, updates going to fail. */
  datatype Census = Census(
    waiting: nat, ownable: nat, dead: nat, missing: nat, stale: nat, requests: nat, failing: nat)

  function Count(s: System): Census {
    Census(|Waiting(s.c)|,
           |s.c.accounts| + |s.c.cronJobs|,
           |DeadAccounts(s.c)| + |DeadCronJobs(s.c)|,
           MissingShared(s) + |Cronless(s.c)|,
           |Stale(s.c)|,
           |s.queue| + (if s.worker.At? then 1 else 0),
           if Failing(s) then 1 else 0)
  }

  /** Never grows: a release frees one Backup and makes at most its binding missing. */
  function Width(n: Census): nat {
    n.ownable + n.missing + n.waiting
  }

  function Minor(n: Census): nat {
    4 * n.dead + n.missing + 2 * n.stale + n.requests + n.failing
  }

  function Weight(n: Census): nat {
    5 * (n.waiting * (Width(n) + 1)) + Minor(n)
  }

  /** The weight, and how far the pass has come. */
  function Rank(s: System): nat {
    17 * Weight(Count(s)) + if s.worker.At? then Remaining(s.worker.site) + 1 else 16
  }

  /** Between two calls of a pass the weight must not grow, at its end it drops. */
  lemma MinorKept(n: Census, n': Census)
    requires n'.waiting == n.waiting && Width(n') <= Width(n) && Minor(n') <= Minor(n)
    ensures Weight(n') <= Weight(n) && (Minor(n') < Minor(n) ==> Weight(n') < Weight(n))
  {
    Monotone(n.waiting, Width(n') + 1, Width(n) + 1);
  }

  lemma ReleaseDrop(n: Census, n': Census)
    requires n'.waiting == n.waiting - 1 && Width(n') <= Width(n)
    requires Minor(n') <= 4 * n.ownable + n.missing + 1 + 2 * n.stale + n.requests
    ensures Weight(n') < Weight(n)
  {
    Monotone(n'.waiting, Width(n') + 1, Width(n) + 1);
    assert n.waiting * (Width(n) + 1) == n'.waiting * (Width(n) + 1) + (Width(n) + 1);
  }

  lemma Monotone(d: nat, x: nat, y: nat)
    requires x <= y
    ensures d * x <= d * y
  {
  }

  lemma {:induction false} SubsetSize<T>(a: set<T>, b: set<T>)
    requires a <= b
    ensures |a| <= |b|
  {
    if a != {} {
      var x :| x in a;
      SubsetSize(a - {x}, b - {x});
    }
  }

  lemma UnionSize<T>(a: set<T>, b: set<T>)
    ensures |a + b| <= |a| + |b|
  {
    assert a + b == a + (b - a);
    SubsetSize(b - a, b);
  }
}

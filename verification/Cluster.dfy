/** The objects the Backup controller reads and writes, and the four render
    functions that turn a Backup into its dependents. */
module Cluster {

  datatype Option<+T> = None | Some(value: T)

  const DEFAULT_NAMESPACE := "default"
  const FINALIZER := "backup.storage.hybfkuf.io/finalizer"
  const CLUSTER_ROLE_NAME := "horusctl-role"
  const SERVICE_ACCOUNT_NAME := "horusctl"
  /** Stands for the five constant policy rules of the ClusterRole template. */
  const CLUSTER_ROLE_RULES := "horusctl-role rules"
  const CRON_SCHEDULE := "*/1 * * * *"
  const CRON_IMAGE := "hybfkuf/horusctl:latest"

  datatype Key = Key(ns: string, name: string)

  /** A controller reference: the owner lives in the owned object's namespace. */
  datatype OwnerRef = OwnerRef(name: string, uid: nat)

  /** The part of Backup.spec that the controller's templates read. */
  datatype BackupSpec = BackupSpec(target: string, logLevel: string, logFormat: string, timeZone: string)

  datatype Backup = Backup(uid: nat, spec: BackupSpec, generation: nat, deleting: bool, finalizers: set<string>)

  datatype ServiceAccount = ServiceAccount(owner: Option<OwnerRef>, managed: bool)

  datatype ClusterRole = ClusterRole(rules: string, managed: bool)

  datatype ClusterRoleBinding =
    ClusterRoleBinding(roleRef: string, subject: string, subjectNs: string, managed: bool)

  datatype CronSpec = CronSpec(
    schedule: string, image: string, logLevel: string, logFormat: string,
    ns: string, target: string, timeZone: string, serviceAccount: string)

  /** The generation is kept by the API server; everything else is rendered. */
  datatype CronJob = CronJob(spec: CronSpec, owner: Option<OwnerRef>, managed: bool, generation: nat)

  /** ServiceAccounts are keyed by namespace because the controller only ever
      names one of them, "horusctl", in each namespace; likewise the ClusterRole. */
  datatype Cluster = Cluster(
    backups: map<Key, Backup>,
    accounts: map<string, ServiceAccount>,
    role: Option<ClusterRole>,
    bindings: map<string, ClusterRoleBinding>,
    cronJobs: map<Key, CronJob>)

  // ---- names -------------------------------------------------------------

  function BindingName(ns: string): string {
    "horusctl-" + ns + "-binding"
  }

  function CronName(name: string): string {
    "backup-" + name
  }

  /** Where a pass looks for the CronJob: in the namespace of the request. */
  function LookupCronKey(k: Key): Key {
    Key(k.ns, CronName(k.name))
  }

  /** Where the template puts the CronJob: always in "default". */
  function RenderedCronKey(k: Key): Key {
    Key(DEFAULT_NAMESPACE, CronName(k.name))
  }

  lemma BindingNameInjective(a: string, b: string)
    requires BindingName(a) == BindingName(b)
    ensures a == b
  {
    var n := |BindingName(a)|;
    assert |a| == |b|;
    assert a == BindingName(a)[9..n - 8];
    assert b == BindingName(b)[9..n - 8];
  }

  lemma CronNameInjective(a: string, b: string)
    requires CronName(a) == CronName(b)
    ensures a == b
  {
    assert a == CronName(a)[7..];
    assert b == CronName(b)[7..];
  }

  // ---- rendering ---------------------------------------------------------

  /** SetControllerReference refuses an owner in another namespace; the
      controller drops that error, so such an object is simply left unowned. */
  function ControllerReference(k: Key, b: Backup, objectNs: string): Option<OwnerRef> {
    if objectNs == k.ns then Some(OwnerRef(k.name, b.uid)) else None
  }

  function RenderServiceAccount(k: Key, b: Backup): ServiceAccount {
    ServiceAccount(ControllerReference(k, b, k.ns), true)
  }

  function RenderClusterRole(): ClusterRole {
    ClusterRole(CLUSTER_ROLE_RULES, true)
  }

  function RenderClusterRoleBinding(ns: string): ClusterRoleBinding {
    ClusterRoleBinding(CLUSTER_ROLE_NAME, SERVICE_ACCOUNT_NAME, ns, true)
  }

  function RenderCronSpec(k: Key, b: Backup): CronSpec {
    CronSpec(CRON_SCHEDULE, CRON_IMAGE, b.spec.logLevel, b.spec.logFormat,
             k.ns, b.spec.target, b.spec.timeZone, SERVICE_ACCOUNT_NAME)
  }

  function RenderCronJob(k: Key, b: Backup, generation: nat): CronJob {
    CronJob(RenderCronSpec(k, b), ControllerReference(k, b, DEFAULT_NAMESPACE), true, generation)
  }

  // ---- single writes, as the API server performs them ---------------------

  function PutServiceAccount(c: Cluster, k: Key, b: Backup): Cluster {
    c.(accounts := c.accounts[k.ns := RenderServiceAccount(k, b)])
  }

  function PutClusterRole(c: Cluster): Cluster {
    c.(role := Some(RenderClusterRole()))
  }

  function PutClusterRoleBinding(c: Cluster, ns: string): Cluster {
    c.(bindings := c.bindings[BindingName(ns) := RenderClusterRoleBinding(ns)])
  }

  /** The role reference of a stored binding cannot be changed: an update that
      would change it is refused. */
  predicate BindingWritable(c: Cluster, ns: string) {
    BindingName(ns) in c.bindings ==> c.bindings[BindingName(ns)].roleRef == CLUSTER_ROLE_NAME
  }

  /** The generation moves exactly when the spec does. */
  function NextCronGeneration(c: Cluster, k: Key, b: Backup): nat {
    var at := RenderedCronKey(k);
    if at !in c.cronJobs then 1
    else if c.cronJobs[at].spec == RenderCronSpec(k, b) then c.cronJobs[at].generation
    else c.cronJobs[at].generation + 1
  }

  function PutCronJob(c: Cluster, k: Key, b: Backup): Cluster {
    c.(cronJobs := c.cronJobs[RenderedCronKey(k) := RenderCronJob(k, b, NextCronGeneration(c, k, b))])
  }

  function PutFinalizer(c: Cluster, k: Key, b: Backup): Cluster {
    c.(backups := c.backups[k := b.(finalizers := b.finalizers + {FINALIZER})])
  }

  function DropBinding(c: Cluster, ns: string): Cluster {
    c.(bindings := c.bindings - {BindingName(ns)})
  }

  /** Dropping the last finalizer of a deleting Backup removes the Backup. */
  function DropFinalizer(c: Cluster, k: Key, b: Backup): Cluster {
    var rest := b.finalizers - {FINALIZER};
    if b.deleting && rest == {} then c.(backups := c.backups - {k})
    else c.(backups := c.backups[k := b.(finalizers := rest)])
  }

  // ---- vocabulary of the theorems ----------------------------------------

  ghost predicate HasBackup(c: Cluster, ns: string) {
    exists k :: k in c.backups && k.ns == ns
  }

  /** A controller reference is alive while that very Backup exists. */
  predicate Alive(c: Cluster, ns: string, ref: OwnerRef) {
    var k := Key(ns, ref.name);
    k in c.backups && c.backups[k].uid == ref.uid
  }

  predicate DeadOwner(c: Cluster, ns: string, owner: Option<OwnerRef>) {
    owner.Some? && !Alive(c, ns, owner.value)
  }

  /** All four dependents of k are stored exactly as rendered from b. */
  predicate DependentsRendered(c: Cluster, k: Key, b: Backup) {
    && k.ns in c.accounts && c.accounts[k.ns] == RenderServiceAccount(k, b)
    && c.role == Some(RenderClusterRole())
    && BindingName(k.ns) in c.bindings && c.bindings[BindingName(k.ns)] == RenderClusterRoleBinding(k.ns)
    && CronRendered(c, k, b)
  }

  predicate CronRendered(c: Cluster, k: Key, b: Backup) {
    var at := RenderedCronKey(k);
    at in c.cronJobs && c.cronJobs[at] == RenderCronJob(k, b, c.cronJobs[at].generation)
  }
}

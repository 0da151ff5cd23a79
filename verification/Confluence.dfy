/** The order in which live Backups are worked on does not matter, and when the
    garbage collector comes by matters in one case only, which is named exactly. */
module Confluence {
  import opened Cluster
  import opened Reconcile
  import opened WorkQueue
  import opened Quiescence
  import I = Interleaving

  function WithFinalizer(b: Backup): Backup {
    b.(finalizers := b.finalizers + {FINALIZER})
  }

  /** The CronJob that k's passes work towards, given the first cluster. */
  function TargetCron(c0: Cluster, k: Key): CronJob
    requires k in c0.backups
  {
    RenderCronJob(k, c0.backups[k], NextCronGeneration(c0, k, c0.backups[k]))
  }

  /** The binding they work towards: one with a foreign role reference stays. */
  function TargetBinding(c0: Cluster): ClusterRoleBinding {
    if BindingWritable(c0, DEFAULT_NAMESPACE) then RenderClusterRoleBinding(DEFAULT_NAMESPACE)
    else c0.bindings[BindingName(DEFAULT_NAMESPACE)]
  }

  /** Backups in "default", none of them deleting. */
  predicate AllLive(c: Cluster) {
    Calm(c) && forall k | k in c.backups :: !c.backups[k].deleting
  }

  /** A controller start: live Backups, all of them queued, and an idle worker.
      Whatever else the cluster holds, such as objects that earlier Backups left
      behind. */
  ghost predicate Start(s: System) {
    AllLive(s.c) && s.c.backups.Keys <= s.queue && s.worker.Idle?
  }

  // ---- where each object can be on its way --------------------------------------

  /** What the garbage collector takes, if it is around (gc) and comes in time. */
  predicate DoomedAccount(c0: Cluster, ns: string, gc: bool) {
    gc && ns in c0.accounts && DeadOwner(c0, ns, c0.accounts[ns].owner)
  }

  predicate DoomedCron(c0: Cluster, at: Key, gc: bool) {
    gc && at in c0.cronJobs && DeadOwner(c0, at.ns, c0.cronJobs[at].owner)
  }

  /** No pass has written it: it is as it was, or collected. */
  predicate AccountKept(c0: Cluster, c: Cluster, ns: string, gc: bool) {
    && (ns in c.accounts ==> ns in c0.accounts && c.accounts[ns] == c0.accounts[ns])
    && (ns in c0.accounts && !DoomedAccount(c0, ns, gc) ==> ns in c.accounts)
  }

  predicate CronKept(c0: Cluster, c: Cluster, at: Key, gc: bool) {
    && (at in c.cronJobs ==> at in c0.cronJobs && c.cronJobs[at] == c0.cronJobs[at])
    && (at in c0.cronJobs && !DoomedCron(c0, at, gc) ==> at in c.cronJobs)
  }

  predicate AccountWritten(c: Cluster) {
    && DEFAULT_NAMESPACE in c.accounts && c.accounts[DEFAULT_NAMESPACE].managed
    && !DeadOwner(c, DEFAULT_NAMESPACE, c.accounts[DEFAULT_NAMESPACE].owner)
  }

  /** A CronJob that was collected first starts again at generation 1. */
  predicate CronWritten(c0: Cluster, c: Cluster, k: Key, gc: bool)
    requires k in c0.backups
  {
    var at := RenderedCronKey(k);
    && at in c.cronJobs
    && (c.cronJobs[at] == TargetCron(c0, k)
        || (DoomedCron(c0, at, gc) && c.cronJobs[at] == RenderCronJob(k, c0.backups[k], 1)))
  }

  predicate BackupOnTrack(c0: Cluster, c: Cluster, k: Key)
    requires k in c0.backups
  {
    k in c.backups && c.backups[k] in {c0.backups[k], WithFinalizer(c0.backups[k])}
  }

  predicate CronOnTrack(c0: Cluster, c: Cluster, k: Key, gc: bool)
    requires k in c0.backups
  {
    CronWritten(c0, c, k, gc) || CronKept(c0, c, RenderedCronKey(k), gc)
  }

  predicate Claimed(c0: Cluster, at: Key) {
    exists k :: k in c0.backups && RenderedCronKey(k) == at
  }

  ghost predicate AccountsOnTrack(c0: Cluster, c: Cluster, gc: bool) {
    && (forall ns | ns != DEFAULT_NAMESPACE :: AccountKept(c0, c, ns, gc))
    && (AccountKept(c0, c, DEFAULT_NAMESPACE, gc) || (AccountWritten(c) && c0.backups != map[]))
  }

  predicate SharedOnTrack(c0: Cluster, c: Cluster) {
    var name := BindingName(DEFAULT_NAMESPACE);
    && c.role in {c0.role, Some(RenderClusterRole())}
    && c.bindings - {name} == c0.bindings - {name}
    && (name in c0.bindings ==> name in c.bindings)
    && (name in c.bindings ==>
          || c.bindings[name] == TargetBinding(c0)
          || (name in c0.bindings && c.bindings[name] == c0.bindings[name]))
    && (c0.backups == map[] ==> c.role == c0.role && c.bindings == c0.bindings)
  }

  ghost predicate OnTrack(c0: Cluster, c: Cluster, gc: bool) {
    && c.backups.Keys == c0.backups.Keys
    && (forall k | k in c0.backups :: BackupOnTrack(c0, c, k) && CronOnTrack(c0, c, k, gc))
    && (forall at | !Claimed(c0, at) :: CronKept(c0, c, at, gc))
    && AccountsOnTrack(c0, c, gc)
    && SharedOnTrack(c0, c)
  }

  /** Everything k needs is in place, but for the account. */
  predicate Nearly(c0: Cluster, c: Cluster, k: Key, gc: bool)
    requires k in c0.backups
  {
    && k in c.backups && c.backups[k] == WithFinalizer(c0.backups[k])
    && CronWritten(c0, c, k, gc)
    && RoleInPlace(c) && BindingInPlace(c0, c)
  }

  predicate RoleInPlace(c: Cluster) {
    c.role == Some(RenderClusterRole())
  }

  predicate BindingInPlace(c0: Cluster, c: Cluster) {
    && BindingName(DEFAULT_NAMESPACE) in c.bindings
    && c.bindings[BindingName(DEFAULT_NAMESPACE)] == TargetBinding(c0)
  }

  /** Everything k needs is in place, whoever owns the account. */
  predicate Settled(c0: Cluster, c: Cluster, k: Key, gc: bool)
    requires k in c0.backups
  {
    Nearly(c0, c, k, gc) && AccountWritten(c)
  }

  // ---- writes keep the track --------------------------------------------------------

  lemma SameAlive(c0: Cluster, c: Cluster)
    requires c.backups.Keys == c0.backups.Keys && forall k | k in c0.backups :: BackupOnTrack(c0, c, k)
    ensures forall ns, owner :: DeadOwner(c, ns, owner) == DeadOwner(c0, ns, owner)
  {
    forall ns, owner
      ensures DeadOwner(c, ns, owner) == DeadOwner(c0, ns, owner)
    {
      if owner.Some? && Key(ns, owner.value.name) in c0.backups {
        assert BackupOnTrack(c0, c, Key(ns, owner.value.name));
      }
    }
  }

  /** What a write that leaves the CronJobs alone keeps. */
  lemma SameCronTracks(c0: Cluster, c: Cluster, c': Cluster, gc: bool)
    requires c'.cronJobs == c.cronJobs
    ensures forall k | k in c0.backups :: CronOnTrack(c0, c, k, gc) ==> CronOnTrack(c0, c', k, gc)
    ensures forall k | k in c0.backups :: CronWritten(c0, c, k, gc) ==> CronWritten(c0, c', k, gc)
    ensures forall at :: CronKept(c0, c, at, gc) ==> CronKept(c0, c', at, gc)
  {
    hide TargetCron, RenderedCronKey, DoomedCron, RenderCronJob;
  }

  /** What a write that leaves Backups and CronJobs alone keeps. */
  lemma SameTracks(c0: Cluster, c: Cluster, c': Cluster, gc: bool)
    requires OnTrack(c0, c, gc) && c'.backups == c.backups && c'.cronJobs == c.cronJobs
    ensures forall k | k in c0.backups :: BackupOnTrack(c0, c', k) && CronOnTrack(c0, c', k, gc)
    ensures forall at | !Claimed(c0, at) :: CronKept(c0, c', at, gc)
    ensures forall ns, owner :: DeadOwner(c', ns, owner) == DeadOwner(c, ns, owner)
  {
    hide CronOnTrack, CronKept, Claimed, AccountsOnTrack, SharedOnTrack;
    SameCronTracks(c0, c, c', gc);
    assert forall k | k in c0.backups :: BackupOnTrack(c0, c, k) ==> BackupOnTrack(c0, c', k);
  }

  /** What a write that leaves the ServiceAccounts alone keeps. */
  lemma SameAccounts(c0: Cluster, c: Cluster, c': Cluster, gc: bool)
    requires AccountsOnTrack(c0, c, gc) && c'.accounts == c.accounts
    requires forall ns, owner :: DeadOwner(c', ns, owner) == DeadOwner(c, ns, owner)
    ensures AccountsOnTrack(c0, c', gc)
  {
    hide DeadOwner, DoomedAccount;
    assert forall ns :: AccountKept(c0, c, ns, gc) ==> AccountKept(c0, c', ns, gc);
  }

  /** What one write of a pass on k does for everything else: it keeps the track,
      and what other Backups have. */
  ghost predicate Fine(c0: Cluster, c: Cluster, c': Cluster, k: Key, gc: bool) {
    && OnTrack(c0, c', gc)
    && (forall j | j in c0.backups && j != k :: Nearly(c0, c, j, gc) ==> Nearly(c0, c', j, gc))
  }

  lemma FineWrite(c0: Cluster, c: Cluster, c': Cluster, k: Key, gc: bool)
    requires OnTrack(c0, c', gc)
    requires forall j | j in c0.backups && j != k :: j in c.backups ==> j in c'.backups && c'.backups[j] == c.backups[j]
    requires forall j | j in c0.backups && j != k :: CronWritten(c0, c, j, gc) ==> CronWritten(c0, c', j, gc)
    requires RoleInPlace(c) ==> RoleInPlace(c')
    requires BindingInPlace(c0, c) ==> BindingInPlace(c0, c')
    ensures Fine(c0, c, c', k, gc)
  {
    hide OnTrack, CronWritten, RoleInPlace, BindingInPlace;
  }

  lemma AccountWrite(c0: Cluster, c: Cluster, k: Key, gc: bool)
    requires AllLive(c0) && OnTrack(c0, c, gc) && k in c.backups
    ensures var c' := PutServiceAccount(c, k, c.backups[k]);
            Fine(c0, c, c', k, gc) && AccountWritten(c')
  {
    hide BackupOnTrack, CronOnTrack, CronKept, Claimed, BindingName, DoomedAccount, CronWritten, Fine;
    var c' := PutServiceAccount(c, k, c.backups[k]);
    SameTracks(c0, c, c', gc);
    SameCronTracks(c0, c, c', gc);
    assert k in c0.backups && k.ns == DEFAULT_NAMESPACE;
    assert forall ns | ns != DEFAULT_NAMESPACE :: AccountKept(c0, c, ns, gc) ==> AccountKept(c0, c', ns, gc);
    FineWrite(c0, c, c', k, gc);
  }

  lemma SharedWrite(c0: Cluster, c: Cluster, c': Cluster, k: Key, gc: bool)
    requires AllLive(c0) && OnTrack(c0, c, gc) && c0.backups != map[]
    requires || c' == PutClusterRole(c)
             || (BindingWritable(c0, DEFAULT_NAMESPACE) && c' == PutClusterRoleBinding(c, DEFAULT_NAMESPACE))
    ensures Fine(c0, c, c', k, gc)
  {
    hide BackupOnTrack, CronOnTrack, CronKept, Claimed, BindingName, AccountsOnTrack, CronWritten, Fine;
    SameTracks(c0, c, c', gc);
    SameCronTracks(c0, c, c', gc);
    SameAccounts(c0, c, c', gc);
    var name := BindingName(DEFAULT_NAMESPACE);
    assert PutClusterRoleBinding(c, DEFAULT_NAMESPACE).bindings - {name} == c.bindings - {name};
    FineWrite(c0, c, c', k, gc);
  }

  lemma TargetIsRendered(c0: Cluster, c: Cluster, k: Key, gc: bool)
    requires k in c0.backups && BackupOnTrack(c0, c, k) && CronOnTrack(c0, c, k, gc)
    ensures CronWritten(c0, PutCronJob(c, k, c.backups[k]), k, gc)
  {
    hide CronName;
    assert RenderCronSpec(k, c.backups[k]) == RenderCronSpec(k, c0.backups[k]);
  }

  lemma CronWrite(c0: Cluster, c: Cluster, k: Key, gc: bool)
    requires AllLive(c0) && OnTrack(c0, c, gc) && k in c.backups
    ensures var c' := PutCronJob(c, k, c.backups[k]);
            k in c0.backups && CronWritten(c0, c', k, gc) && Fine(c0, c, c', k, gc)
  {
    hide BindingName, RenderedCronKey, RenderCronJob, NextCronGeneration, AccountsOnTrack, TargetBinding, Claimed,
      CronOnTrack, CronKept, CronWritten, Fine;
    var c' := PutCronJob(c, k, c.backups[k]);
    CronTracksWritten(c0, c, k, gc);
    assert forall j | j in c0.backups :: BackupOnTrack(c0, c, j) ==> BackupOnTrack(c0, c', j);
    SameAccounts(c0, c, c', gc);
    FineWrite(c0, c, c', k, gc);
  }

  lemma CronTracksWritten(c0: Cluster, c: Cluster, k: Key, gc: bool)
    requires AllLive(c0) && OnTrack(c0, c, gc) && k in c.backups
    ensures var c' := PutCronJob(c, k, c.backups[k]);
            && k in c0.backups && CronWritten(c0, c', k, gc)
            && (forall j | j in c0.backups :: CronOnTrack(c0, c', j, gc))
            && (forall at | !Claimed(c0, at) :: CronKept(c0, c', at, gc))
            && (forall j | j in c0.backups && j != k :: CronWritten(c0, c, j, gc) ==> CronWritten(c0, c', j, gc))
  {
    hide CronName, TargetCron, RenderCronJob, NextCronGeneration, AccountsOnTrack, SharedOnTrack, DoomedCron;
    var at, c' := RenderedCronKey(k), PutCronJob(c, k, c.backups[k]);
    OneCronJobEach(c0);
    assert BackupOnTrack(c0, c, k) && CronOnTrack(c0, c, k, gc);
    TargetIsRendered(c0, c, k, gc);
    assert Claimed(c0, at);
    assert forall other | other != at :: CronKept(c0, c, other, gc) ==> CronKept(c0, c', other, gc);
    assert forall j | j in c0.backups && j != k :: CronWritten(c0, c, j, gc) ==> CronWritten(c0, c', j, gc);
  }

  lemma FinalizerWrite(c0: Cluster, c: Cluster, k: Key, gc: bool)
    requires AllLive(c0) && OnTrack(c0, c, gc) && k in c.backups
    ensures var c' := PutFinalizer(c, k, c.backups[k]);
            && k in c0.backups && c'.backups[k] == WithFinalizer(c0.backups[k])
            && Fine(c0, c, c', k, gc) && (AccountWritten(c) ==> AccountWritten(c'))
  {
    hide CronName, BindingName, AccountsOnTrack, CronOnTrack, CronKept, Claimed, TargetBinding, CronWritten, Fine;
    var c' := PutFinalizer(c, k, c.backups[k]);
    assert BackupOnTrack(c0, c, k);
    assert c'.backups[k] == WithFinalizer(c0.backups[k]);
    assert c'.backups.Keys == c.backups.Keys;
    SameCronTracks(c0, c, c', gc);
    assert forall j | j in c0.backups && j != k :: BackupOnTrack(c0, c, j) ==> BackupOnTrack(c0, c', j);
    assert forall ns, owner :: DeadOwner(c', ns, owner) == DeadOwner(c, ns, owner);
    SameAccounts(c0, c, c', gc);
    FineWrite(c0, c, c', k, gc);
  }

  /** Passes do not change whether the binding can be written. */
  lemma BindingStaysWritable(c0: Cluster, c: Cluster)
    requires SharedOnTrack(c0, c)
    ensures BindingWritable(c, DEFAULT_NAMESPACE) <==> BindingWritable(c0, DEFAULT_NAMESPACE)
  {
    hide BindingName;
  }

  // ---- the invariant without the account ------------------------------------------------

  /** What the current pass has achieved. */
  predicate PassOnTrack(c0: Cluster, s: System, gc: bool) {
    s.worker.At? ==>
      var c, site, k := s.c, s.worker.site, s.worker.k;
      && k in c0.backups
      && (Remaining(site) <= 8 ==> RoleInPlace(c))
      && (Remaining(site) <= 5 ==> BindingInPlace(c0, c))
      && (Remaining(site) <= 2 ==> CronWritten(c0, c, k, gc))
  }

  predicate Working(s: System, k: Key) {
    s.worker.At? && s.worker.k == k
  }

  ghost predicate Inv(c0: Cluster, s: System, gc: bool) {
    && OnTrack(c0, s.c, gc) && Coherent(s) && PassOnTrack(c0, s, gc)
    && forall k | k in c0.backups && k !in s.queue && !Working(s, k) :: Nearly(c0, s.c, k, gc)
  }

  /** Every call of a pass on a live Backup moves each object only along its track,
      leaves the others with what they have, and brings its own Backup on. */
  lemma CallStaysOnTrack(c0: Cluster, s: System, gc: bool)
    requires AllLive(c0) && Inv(c0, s, gc) && Possible(s, Proceed)
    ensures Inv(c0, After(s, Proceed), gc)
  {
    var s', c, site, k, b := After(s, Proceed), s.c, s.worker.site, s.worker.k, s.worker.b;
    PremiseHere(c0, s, gc);
    PremiseIsKept(s, Proceed);
    CallIsFine(c0, s, gc);
    hide OnTrack, Coherent, Nearly, Call, Woken;
  }

  lemma PremiseHere(c0: Cluster, s: System, gc: bool)
    requires AllLive(c0) && OnTrack(c0, s.c, gc)
    ensures AllLive(s.c)
  {
    forall k | k in s.c.backups
      ensures k.ns == DEFAULT_NAMESPACE && !s.c.backups[k].deleting
    {
      assert BackupOnTrack(c0, s.c, k);
    }
  }

  /** What the call that leads from s to s' does. */
  ghost predicate CallFine(c0: Cluster, s: System, s': System, gc: bool)
    requires s.worker.At?
  {
    var k := s.worker.k;
    && Fine(c0, s.c, s'.c, k, gc) && PassOnTrack(c0, s', gc)
    && k in c0.backups && (s'.worker.Idle? && k !in s'.queue ==> Nearly(c0, s'.c, k, gc))
  }

  lemma AccountCall(c0: Cluster, s: System, gc: bool)
    requires AllLive(c0) && Inv(c0, s, gc) && Possible(s, Proceed) && Remaining(s.worker.site) >= 12
    ensures CallFine(c0, s, After(s, Proceed), gc)
  {
    hide OnTrack, Woken, BindingName, CronName, CronWritten, Fine, TargetBinding, WithFinalizer, BindingInPlace;
    var s', c, site, k := After(s, Proceed), s.c, s.worker.site, s.worker.k;
    PremiseHere(c0, s, gc);
    FineWrite(c0, c, c, k, gc);
    if site in {CreateServiceAccount, UpdateServiceAccount} { AccountWrite(c0, c, k, gc); }
  }

  lemma RoleCall(c0: Cluster, s: System, gc: bool)
    requires AllLive(c0) && Inv(c0, s, gc) && Possible(s, Proceed) && 9 <= Remaining(s.worker.site) <= 11
    ensures CallFine(c0, s, After(s, Proceed), gc)
  {
    hide OnTrack, Woken, BindingName, CronName, CronWritten, Fine, TargetBinding, WithFinalizer, BindingInPlace;
    var s', c, site, k := After(s, Proceed), s.c, s.worker.site, s.worker.k;
    PremiseHere(c0, s, gc);
    FineWrite(c0, c, c, k, gc);
    if site in {CreateClusterRole, UpdateClusterRole} { SharedWrite(c0, c, PutClusterRole(c), k, gc); }
  }

  lemma BindingCall(c0: Cluster, s: System, gc: bool)
    requires AllLive(c0) && Inv(c0, s, gc) && Possible(s, Proceed) && 6 <= Remaining(s.worker.site) <= 8
    ensures CallFine(c0, s, After(s, Proceed), gc)
  {
    hide OnTrack, Woken, BindingName, CronName, CronWritten, Fine, TargetBinding, WithFinalizer, BindingInPlace;
    var s', c, site, k := After(s, Proceed), s.c, s.worker.site, s.worker.k;
    PremiseHere(c0, s, gc);
    FineWrite(c0, c, c, k, gc);
    if site in {CreateBinding, UpdateBinding} { BindingIsFine(c0, c, k, gc); }
  }

  lemma CronCall(c0: Cluster, s: System, gc: bool)
    requires AllLive(c0) && Inv(c0, s, gc) && Possible(s, Proceed) && 3 <= Remaining(s.worker.site) <= 5
    ensures CallFine(c0, s, After(s, Proceed), gc)
  {
    hide OnTrack, Woken, BindingName, CronName, CronWritten, Fine, TargetBinding, WithFinalizer, BindingInPlace;
    var s', c, site, k := After(s, Proceed), s.c, s.worker.site, s.worker.k;
    PremiseHere(c0, s, gc);
    FineWrite(c0, c, c, k, gc);
    if site in {CreateCronJob, UpdateCronJob} {
      CronWrite(c0, c, k, gc);
      OwnFinalizer(c0, c, k, gc);
      SameBinding(c0, c, PutCronJob(c, k, c.backups[k]));
    }
  }

  lemma FinalizerCall(c0: Cluster, s: System, gc: bool)
    requires AllLive(c0) && Inv(c0, s, gc) && Possible(s, Proceed) && Remaining(s.worker.site) <= 2
    ensures CallFine(c0, s, After(s, Proceed), gc)
  {
    hide OnTrack, Woken, BindingName, CronName, CronWritten, Fine, TargetBinding, WithFinalizer, BindingInPlace;
    var s', c, site, k := After(s, Proceed), s.c, s.worker.site, s.worker.k;
    PremiseHere(c0, s, gc);
    FineWrite(c0, c, c, k, gc);
    FinalizerWrite(c0, c, k, gc);
    SameCronTracks(c0, c, s'.c, gc);
    SameBinding(c0, c, PutFinalizer(c, k, c.backups[k]));
  }

  lemma SameBinding(c0: Cluster, c: Cluster, c': Cluster)
    requires c'.bindings == c.bindings
    ensures BindingInPlace(c0, c') == BindingInPlace(c0, c)
  {
  }

  lemma CallIsFine(c0: Cluster, s: System, gc: bool)
    requires AllLive(c0) && Inv(c0, s, gc) && Possible(s, Proceed)
    ensures CallFine(c0, s, After(s, Proceed), gc)
  {
    hide Inv, CallFine, After;
    if Remaining(s.worker.site) >= 12 { AccountCall(c0, s, gc); }
    else if Remaining(s.worker.site) >= 9 { RoleCall(c0, s, gc); }
    else if Remaining(s.worker.site) >= 6 { BindingCall(c0, s, gc); }
    else if Remaining(s.worker.site) >= 3 { CronCall(c0, s, gc); }
    else { FinalizerCall(c0, s, gc); }
  }

  lemma BindingIsFine(c0: Cluster, c: Cluster, k: Key, gc: bool)
    requires AllLive(c0) && OnTrack(c0, c, gc) && k in c.backups
    ensures var c' := if BindingWritable(c, DEFAULT_NAMESPACE) then PutClusterRoleBinding(c, DEFAULT_NAMESPACE) else c;
            Fine(c0, c, c', k, gc) && BindingInPlace(c0, c')
  {
    hide BackupOnTrack, CronOnTrack, CronKept, Claimed, BindingName, AccountsOnTrack, CronWritten, Fine;
    BindingStaysWritable(c0, c);
    if BindingWritable(c, DEFAULT_NAMESPACE) {
      SharedWrite(c0, c, PutClusterRoleBinding(c, DEFAULT_NAMESPACE), k, gc);
    } else {
      FineWrite(c0, c, c, k, gc);
    }
  }

  lemma OwnFinalizer(c0: Cluster, c: Cluster, k: Key, gc: bool)
    requires OnTrack(c0, c, gc) && k in c0.backups
    ensures k in c.backups && (FINALIZER in c.backups[k].finalizers ==> c.backups[k] == WithFinalizer(c0.backups[k]))
  {
    assert BackupOnTrack(c0, c, k);
    assert FINALIZER in c0.backups[k].finalizers ==> c0.backups[k] == WithFinalizer(c0.backups[k]);
  }

  // ---- the garbage collector keeps the track too ----------------------------------------

  lemma AccountCollected(c0: Cluster, c: Cluster, c': Cluster, ns: string)
    requires OnTrack(c0, c, true) && c' == c.(accounts := c.accounts - {ns})
    requires ns in c.accounts && DeadOwner(c, ns, c.accounts[ns].owner)
    ensures OnTrack(c0, c', true) && AccountKept(c0, c', ns, true) && DoomedAccount(c0, ns, true)
    ensures forall k | k in c0.backups && Nearly(c0, c, k, true) :: Nearly(c0, c', k, true)
    ensures AccountWritten(c) ==> ns != DEFAULT_NAMESPACE && AccountWritten(c')
    ensures c.accounts[ns] == c0.accounts[ns]
  {
    hide BindingName, CronName, TargetCron, RenderCronJob, TargetBinding, DoomedCron;
    SameAlive(c0, c);
    SameTracks(c0, c, c', true);
    assert AccountKept(c0, c, ns, true) && AccountKept(c0, c', ns, true);
    assert forall other | other != ns :: AccountKept(c0, c, other, true) ==> AccountKept(c0, c', other, true);
  }

  lemma CronJobCollected(c0: Cluster, c: Cluster, c': Cluster, at: Key)
    requires OnTrack(c0, c, true) && c' == c.(cronJobs := c.cronJobs - {at})
    requires at in c.cronJobs && DeadOwner(c, at.ns, c.cronJobs[at].owner)
    ensures OnTrack(c0, c', true)
    ensures forall k | k in c0.backups && CronWritten(c0, c, k, true) :: CronWritten(c0, c', k, true)
    ensures forall other :: CronKept(c0, c, other, true) ==> CronKept(c0, c', other, true)
  {
    hide BindingName, CronName, TargetBinding, CronKept, CronWritten, AccountsOnTrack, DoomedCron;
    SameAlive(c0, c);
    WrittenIsAlive(c0, c);
    CronTracksAfter(c0, c, c', at);
    assert forall k | k in c0.backups :: BackupOnTrack(c0, c, k) ==> BackupOnTrack(c0, c', k);
    SameAccounts(c0, c, c', true);
  }

  lemma CronTracksAfter(c0: Cluster, c: Cluster, c': Cluster, at: Key)
    requires c'.cronJobs == c.cronJobs - {at} && at in c.cronJobs && DeadOwner(c0, at.ns, c.cronJobs[at].owner)
    requires forall k | k in c0.backups :: CronOnTrack(c0, c, k, true)
    requires forall other | !Claimed(c0, other) :: CronKept(c0, c, other, true)
    requires forall k | k in c0.backups && CronWritten(c0, c, k, true) :: RenderedCronKey(k) != at
    ensures forall k | k in c0.backups && CronWritten(c0, c, k, true) :: CronWritten(c0, c', k, true)
    ensures forall k | k in c0.backups :: CronOnTrack(c0, c', k, true)
    ensures forall other | !Claimed(c0, other) :: CronKept(c0, c', other, true)
    ensures forall other :: CronKept(c0, c, other, true) ==> CronKept(c0, c', other, true)
  {
    hide TargetCron, RenderCronJob, CronName, DeadOwner;
    assert CronKept(c0, c, at, true) by {
      if Claimed(c0, at) {
        var k :| k in c0.backups && RenderedCronKey(k) == at;
        assert CronOnTrack(c0, c, k, true);
      }
    }
    assert CronKept(c0, c', at, true);
    assert forall other | other != at :: CronKept(c0, c, other, true) ==> CronKept(c0, c', other, true);
  }

  lemma WrittenIsAlive(c0: Cluster, c: Cluster)
    requires c.backups.Keys == c0.backups.Keys && forall k | k in c0.backups :: BackupOnTrack(c0, c, k)
    ensures forall k | k in c0.backups && CronWritten(c0, c, k, true) ::
              !DeadOwner(c, DEFAULT_NAMESPACE, c.cronJobs[RenderedCronKey(k)].owner)
  {
    hide CronName, NextCronGeneration, DoomedCron;
  }

  lemma CollectionStaysOnTrack(c0: Cluster, s: System, a: Action)
    requires AllLive(c0) && Inv(c0, s, true) && Possible(s, a) && Collects(a)
    ensures Inv(c0, After(s, a), true)
  {
    PremiseHere(c0, s, true);
    PremiseIsKept(s, a);
    var s' := After(s, a);
    hide OnTrack, Coherent, Woken, BindingName, CronName, CronWritten, TargetBinding, WithFinalizer;
    match a
    case CollectAccount(ns) => AccountCollected(c0, s.c, s'.c, ns); SameCronTracks(c0, s.c, s'.c, true);
    case CollectCronJob(at) => CronJobCollected(c0, s.c, s'.c, at);
  }

  lemma TakeStaysOnTrack(c0: Cluster, s: System, k: Key, gc: bool)
    requires AllLive(c0) && Inv(c0, s, gc) && Possible(s, Take(k))
    ensures Inv(c0, After(s, Take(k)), gc)
  {
    SameKeys(c0, s.c, gc);
    PremiseHere(c0, s, gc);
    PremiseIsKept(s, Take(k));
    hide OnTrack, Coherent, Nearly;
  }

  lemma SameKeys(c0: Cluster, c: Cluster, gc: bool)
    requires OnTrack(c0, c, gc)
    ensures c.backups.Keys == c0.backups.Keys
  {
  }

  // ---- the account ----------------------------------------------------------------------

  /** Nothing but the account is ever lost, and in one way only: its owner is dead,
      the collector takes it between the read and the update of a pass, the error
      of the update is discarded, and the pass ends without a reason to come back. */

  predicate AtAccount(s: System, k: Key) {
    Working(s, k) && s.worker.site in {GetServiceAccount, CreateServiceAccount, UpdateServiceAccount}
  }

  predicate BeforeCreate(s: System, k: Key) {
    Working(s, k) && s.worker.site in {GetServiceAccount, CreateServiceAccount}
  }

  ghost predicate Untouched(c0: Cluster, c: Cluster, gc: bool) {
    c.role == c0.role && c.bindings == c0.bindings && forall at :: CronKept(c0, c, at, gc)
  }

  /** The account has a dead owner whose name is not that of k, so that k is not
      queued when the account goes. */
  predicate ForeignDoom(c0: Cluster, k: Key, gc: bool) {
    DoomedAccount(c0, DEFAULT_NAMESPACE, gc) && c0.accounts[DEFAULT_NAMESPACE].owner.value.name != k.name
  }

  /** No pass has come past the account. */
  ghost predicate NoneBegun(c0: Cluster, s: System, gc: bool) {
    && Untouched(c0, s.c, gc) && AccountKept(c0, s.c, DEFAULT_NAMESPACE, gc)
    && (forall k | k in c0.backups :: k in s.queue || AtAccount(s, k))
    && (s.worker.At? ==> AtAccount(s, s.worker.k))
    && (IsAt(s.worker, UpdateServiceAccount) && DEFAULT_NAMESPACE !in s.c.accounts && s.worker.k !in s.queue ==>
          ForeignDoom(c0, s.worker.k, gc))
  }

  /** The account is missing, and every Backup is going to look for it. */
  ghost predicate AllAgain(c0: Cluster, s: System) {
    DEFAULT_NAMESPACE !in s.c.accounts && forall k | k in c0.backups :: k in s.queue || BeforeCreate(s, k)
  }

  /** k finds nothing to create and nothing stale. */
  predicate Unremarkable(c0: Cluster, k: Key) {
    var at := RenderedCronKey(k);
    && k in c0.backups && c0.role.Some? && BindingName(DEFAULT_NAMESPACE) in c0.bindings
    && at in c0.cronJobs && c0.cronJobs[at].spec == RenderCronSpec(k, c0.backups[k])
  }

  /** The account is missing, and k is past it and not coming back. */
  ghost predicate Losing(c0: Cluster, s: System, k: Key, gc: bool) {
    && DEFAULT_NAMESPACE !in s.c.accounts && k in c0.backups && k !in s.queue && ForeignDoom(c0, k, gc)
    && (forall j | j in c0.backups && j != k :: j in s.queue || BeforeCreate(s, j))
    && if Working(s, k) then Slipping(c0, s.c, s.worker.site, k, gc) else Unremarkable(c0, k)
  }

  /** What k has found so far was there from the start. */
  ghost predicate Slipping(c0: Cluster, c: Cluster, site: CallSite, k: Key, gc: bool) {
    match Remaining(site)
    case 11 | 10 | 9 => Untouched(c0, c, gc)
    case 8 | 7 | 6 => c0.role.Some? && c.bindings == c0.bindings && CronKept(c0, c, RenderedCronKey(k), gc)
    case 5 | 4 | 3 =>
      && c0.role.Some? && BindingName(DEFAULT_NAMESPACE) in c0.bindings && CronKept(c0, c, RenderedCronKey(k), gc)
      && (site == UpdateCronJob ==> RenderedCronKey(k) in c0.cronJobs)
    case 2 => Unremarkable(c0, k)
    case _ => false
  }

  ghost predicate AccountInv(c0: Cluster, s: System, gc: bool) {
    || AccountWritten(s.c)
    || NoneBegun(c0, s, gc)
    || AllAgain(c0, s)
    || exists k :: Losing(c0, s, k, gc)
  }

  lemma WrittenStays(c0: Cluster, s: System, gc: bool)
    requires AllLive(c0) && Inv(c0, s, gc) && Possible(s, Proceed) && AccountWritten(s.c)
    ensures AccountWritten(After(s, Proceed).c)
  {
    hide OnTrack, Woken, BindingName, CronName, Nearly, PassOnTrack;
    PremiseHere(c0, s, gc);
    if s.worker.site == UpdateServiceAccount {
      AccountWrite(c0, s.c, s.worker.k, gc);
    } else if s.worker.site == AddFinalizer {
      FinalizerWrite(c0, s.c, s.worker.k, gc);
    }
  }

  lemma BeginningStays(c0: Cluster, s: System, gc: bool)
    requires AllLive(c0) && Inv(c0, s, gc) && Possible(s, Proceed) && NoneBegun(c0, s, gc)
    ensures AccountInv(c0, After(s, Proceed), gc)
  {
    hide OnTrack, Woken, BindingName, CronName, Nearly, CronKept, AccountKept;
    var s', k := After(s, Proceed), s.worker.k;
    PremiseHere(c0, s, gc);
    UnwatchedWakesNobody(s.c, s.c);
    if s.worker.site == CreateServiceAccount || (s.worker.site == UpdateServiceAccount && k.ns in s.c.accounts) {
      AccountWrite(c0, s.c, k, gc);
    } else if s.worker.site == UpdateServiceAccount {
      assert k in s.queue ==> AllAgain(c0, s');
      assert k !in s.queue ==> Losing(c0, s', k, gc);
    } else {
      assert NoneBegun(c0, s', gc);
    }
  }

  lemma AgainStays(c0: Cluster, s: System, gc: bool)
    requires AllLive(c0) && Inv(c0, s, gc) && Possible(s, Proceed) && AllAgain(c0, s)
    ensures AccountInv(c0, After(s, Proceed), gc)
  {
    hide OnTrack, Woken, BindingName, CronName, Nearly, CronKept, AccountKept;
    var s', k := After(s, Proceed), s.worker.k;
    PremiseHere(c0, s, gc);
    if s.worker.site == CreateServiceAccount {
      AccountWrite(c0, s.c, k, gc);
    } else {
      assert AllAgain(c0, s');
    }
  }

  /** Another pass comes across the missing account and creates it. */
  lemma OtherPassCreates(c0: Cluster, s: System, k: Key, gc: bool)
    requires AllLive(c0) && Inv(c0, s, gc) && Possible(s, Proceed) && Losing(c0, s, k, gc) && s.worker.k != k
    ensures AccountInv(c0, After(s, Proceed), gc)
  {
    hide OnTrack, Woken, BindingName, CronName, Nearly, Unremarkable;
    var s', j := After(s, Proceed), s.worker.k;
    PremiseHere(c0, s, gc);
    if s.worker.site == CreateServiceAccount {
      AccountWrite(c0, s.c, j, gc);
    } else {
      assert k in s'.queue ==> AllAgain(c0, s');
      assert k !in s'.queue ==> Losing(c0, s', k, gc);
    }
  }

  /** The losing pass itself: unless it comes back it has found everything. */
  lemma SlippingStays(c0: Cluster, s: System, k: Key, gc: bool)
    requires AllLive(c0) && Inv(c0, s, gc) && Possible(s, Proceed) && Losing(c0, s, k, gc) && s.worker.k == k
    ensures AccountInv(c0, After(s, Proceed), gc)
  {
    hide OnTrack, Woken, BindingName, CronName, Nearly, CronKept, Unremarkable, Slipping, ForeignDoom, PassOnTrack;
    var s' := After(s, Proceed);
    PremiseHere(c0, s, gc);
    SlippingCall(c0, s, k, gc);
    assert k in s'.queue ==> AllAgain(c0, s');
    assert k !in s'.queue ==> Losing(c0, s', k, gc);
  }

  ghost predicate Slips(c0: Cluster, s: System, s': System, k: Key, gc: bool) {
    && s'.c.accounts == s.c.accounts
    && (k !in s'.queue ==>
          if s'.worker.At? then Slipping(c0, s'.c, s'.worker.site, k, gc) else Unremarkable(c0, k))
  }

  lemma SlippingCall(c0: Cluster, s: System, k: Key, gc: bool)
    requires AllLive(c0) && Inv(c0, s, gc) && Possible(s, Proceed) && s.worker.k == k
    requires Slipping(c0, s.c, s.worker.site, k, gc)
    ensures Slips(c0, s, After(s, Proceed), k, gc)
  {
    hide Inv, Slipping, Slips, After;
    if Remaining(s.worker.site) >= 9 { SlippingPastRole(c0, s, k, gc); }
    else if Remaining(s.worker.site) >= 6 { SlippingPastBinding(c0, s, k, gc); }
    else { SlippingPastCron(c0, s, k, gc); }
  }

  lemma SlippingPastRole(c0: Cluster, s: System, k: Key, gc: bool)
    requires AllLive(c0) && Inv(c0, s, gc) && Possible(s, Proceed) && s.worker.k == k
    requires Slipping(c0, s.c, s.worker.site, k, gc) && Remaining(s.worker.site) >= 9
    ensures Slips(c0, s, After(s, Proceed), k, gc)
  {
    hide OnTrack, Woken, BindingName, CronName, Nearly, PassOnTrack, CronKept, Unremarkable, RenderedCronKey;
    SameCronTracks(c0, s.c, After(s, Proceed).c, gc);
  }

  lemma SlippingPastBinding(c0: Cluster, s: System, k: Key, gc: bool)
    requires AllLive(c0) && Inv(c0, s, gc) && Possible(s, Proceed) && s.worker.k == k
    requires Slipping(c0, s.c, s.worker.site, k, gc) && 6 <= Remaining(s.worker.site) <= 8
    ensures Slips(c0, s, After(s, Proceed), k, gc)
  {
    hide OnTrack, Woken, BindingName, CronName, Nearly, PassOnTrack, CronKept, Unremarkable, RenderedCronKey;
    SameCronTracks(c0, s.c, After(s, Proceed).c, gc);
  }

  lemma SlippingPastCron(c0: Cluster, s: System, k: Key, gc: bool)
    requires AllLive(c0) && Inv(c0, s, gc) && Possible(s, Proceed) && s.worker.k == k
    requires Slipping(c0, s.c, s.worker.site, k, gc) && Remaining(s.worker.site) < 6
    ensures Slips(c0, s, After(s, Proceed), k, gc)
  {
    hide OnTrack, Woken, BindingName, CronName, Nearly, PassOnTrack, CronKept, Unremarkable, PutCronJob;
    PremiseHere(c0, s, gc);
    if s.worker.site == UpdateCronJob && RenderedCronKey(k) in s.c.cronJobs {
      UpdateSlips(c0, s.c, k, gc);
    } else {
      GetSlips(c0, s.c, k, gc);
      CronWriteWrites(s.c, k, s.worker.b);
    }
  }

  lemma CronWriteWrites(c: Cluster, k: Key, b: Backup)
    ensures PutCronJob(c, k, b).accounts == c.accounts
  {
  }

  lemma GetSlips(c0: Cluster, c: Cluster, k: Key, gc: bool)
    ensures CronKept(c0, c, RenderedCronKey(k), gc) && RenderedCronKey(k) in c.cronJobs ==>
              RenderedCronKey(k) in c0.cronJobs
  {
  }

  /** An update either finds the CronJob up to date or wakes k. */
  lemma UpdateSlips(c0: Cluster, c: Cluster, k: Key, gc: bool)
    requires OnTrack(c0, c, gc) && k in c.backups && k.ns == DEFAULT_NAMESPACE && RenderedCronKey(k) in c.cronJobs
    requires c0.role.Some? && BindingName(DEFAULT_NAMESPACE) in c0.bindings && CronKept(c0, c, RenderedCronKey(k), gc)
    ensures var c' := PutCronJob(c, k, c.backups[k]);
            c'.accounts == c.accounts && (k in Woken(c, c') || Unremarkable(c0, k))
  {
    hide OnTrack, BindingName, CronName, Woken, DoomedCron, RenderCronJob, NextCronGeneration;
    SameSpec(c0, c, k, gc);
    CronWriteWakes(c, k);
  }

  lemma SameSpec(c0: Cluster, c: Cluster, k: Key, gc: bool)
    requires OnTrack(c0, c, gc) && k in c.backups
    ensures k in c0.backups && RenderCronSpec(k, c.backups[k]) == RenderCronSpec(k, c0.backups[k])
  {
    assert BackupOnTrack(c0, c, k);
  }

  lemma CallKeepsAccount(c0: Cluster, s: System, gc: bool)
    requires AllLive(c0) && Inv(c0, s, gc) && Possible(s, Proceed) && AccountInv(c0, s, gc)
    ensures AccountInv(c0, After(s, Proceed), gc)
  {
    hide Inv, NoneBegun, AllAgain, AccountWritten, Losing, After;
    if AccountWritten(s.c) {
      WrittenStays(c0, s, gc);
    } else if NoneBegun(c0, s, gc) {
      BeginningStays(c0, s, gc);
    } else if AllAgain(c0, s) {
      AgainStays(c0, s, gc);
    } else {
      var k :| Losing(c0, s, k, gc);
      if s.worker.k == k { SlippingStays(c0, s, k, gc); } else { OtherPassCreates(c0, s, k, gc); }
    }
  }

  lemma TakeKeepsAccount(c0: Cluster, s: System, k: Key, gc: bool)
    requires Inv(c0, s, gc) && Possible(s, Take(k)) && AccountInv(c0, s, gc)
    ensures AccountInv(c0, After(s, Take(k)), gc)
  {
    SameKeys(c0, s.c, gc);
    hide Inv, Untouched, AccountKept, AccountWritten, Unremarkable, ForeignDoom;
    var s' := After(s, Take(k));
    if NoneBegun(c0, s, gc) {
      assert NoneBegun(c0, s', gc);
    } else if AllAgain(c0, s) {
      assert AllAgain(c0, s');
    } else if lost :| Losing(c0, s, lost, gc) {
      assert Losing(c0, s', lost, gc);
    }
  }

  /** A collected account: nobody has come past it, or it is not the shared one. */
  lemma CollectedAccountKept(c0: Cluster, s: System, ns: string)
    requires Inv(c0, s, true) && Possible(s, CollectAccount(ns)) && AccountInv(c0, s, true)
    ensures AccountInv(c0, After(s, CollectAccount(ns)), true)
  {
    hide OnTrack, Nearly, PassOnTrack, BindingName, CronName, Unremarkable, Woken;
    var s' := After(s, CollectAccount(ns));
    AccountCollected(c0, s.c, s'.c, ns);
    SameCronTracks(c0, s.c, s'.c, true);
    if NoneBegun(c0, s, true) {
      CollectionWakesOwner(s.c, s'.c, ns);
      assert NoneBegun(c0, s', true);
    } else if AllAgain(c0, s) {
      assert AllAgain(c0, s');
    } else if k :| Losing(c0, s, k, true) {
      assert if k in s'.queue then AllAgain(c0, s') else Losing(c0, s', k, true);
    }
  }

  lemma CollectionWakesOwner(c: Cluster, c': Cluster, ns: string)
    requires ns in c.accounts && c' == c.(accounts := c.accounts - {ns})
    ensures AccountOwners(c, ns) <= Woken(c, c')
  {
    OneAccountWakes(c, c', ns);
  }

  lemma CollectedCronJobKept(c0: Cluster, s: System, at: Key)
    requires Inv(c0, s, true) && Possible(s, CollectCronJob(at)) && AccountInv(c0, s, true)
    ensures AccountInv(c0, After(s, CollectCronJob(at)), true)
  {
    hide OnTrack, Nearly, PassOnTrack, BindingName, CronName, Unremarkable, Woken, CronKept;
    var s' := After(s, CollectCronJob(at));
    CronJobCollected(c0, s.c, s'.c, at);
    if NoneBegun(c0, s, true) {
      assert NoneBegun(c0, s', true);
    } else if AllAgain(c0, s) {
      assert AllAgain(c0, s');
    } else if k :| Losing(c0, s, k, true) {
      assert if k in s'.queue then AllAgain(c0, s') else Losing(c0, s', k, true);
    }
  }

  // ---- every execution ----------------------------------------------------------------

  lemma InvIsKept(c0: Cluster, s: System, a: Action, gc: bool)
    requires AllLive(c0) && Inv(c0, s, gc) && AccountInv(c0, s, gc) && Possible(s, a) && (gc || !Collects(a))
    ensures Inv(c0, After(s, a), gc) && AccountInv(c0, After(s, a), gc)
  {
    hide Inv, AccountInv, After;
    match a
    case Take(k) => TakeStaysOnTrack(c0, s, k, gc); TakeKeepsAccount(c0, s, k, gc);
    case Proceed => CallStaysOnTrack(c0, s, gc); CallKeepsAccount(c0, s, gc);
    case CollectAccount(ns) => CollectionStaysOnTrack(c0, s, a); CollectedAccountKept(c0, s, ns);
    case CollectCronJob(at) => CollectionStaysOnTrack(c0, s, a); CollectedCronJobKept(c0, s, at);
  }

  lemma InvAtStart(s: System, gc: bool)
    requires Start(s)
    ensures Inv(s.c, s, gc) && AccountInv(s.c, s, gc)
  {
    var c := s.c;
    assert forall k | k in c.backups :: BackupOnTrack(c, c, k) && CronOnTrack(c, c, k, gc);
    assert NoneBegun(c, s, gc);
  }

  lemma {:induction false} InvHolds(run: seq<System>, actions: seq<Action>, i: nat, gc: bool)
    requires Execution(run, actions) && Start(run[0]) && i < |run|
    requires gc || forall j :: 0 <= j < |actions| ==> !Collects(actions[j])
    ensures Inv(run[0].c, run[i], gc) && AccountInv(run[0].c, run[i], gc)
  {
    hide Inv, AccountInv, After;
    if i == 0 {
      InvAtStart(run[0], gc);
    } else {
      InvHolds(run, actions, i - 1, gc);
      assert run[i] == After(run[i - 1], actions[i - 1]);
      InvIsKept(run[0].c, run[i - 1], actions[i - 1], gc);
    }
  }

  // ---- the end is determined -------------------------------------------------------------

  /** The start from which the account can be lost: the shared account has a dead
      owner, there is just one Backup, that Backup is not the owner's namesake, and
      it finds nothing to create and nothing stale. */
  ghost predicate Exposed(c0: Cluster) {
    exists k :: c0.backups.Keys == {k} && ForeignDoom(c0, k, true) && Unremarkable(c0, k)
  }

  /** An end: no request is left and, if the collector is around, nothing for it to
      take. */
  ghost predicate Ended(c0: Cluster, s: System, gc: bool) {
    && Inv(c0, s, gc) && AccountInv(c0, s, gc) && s.worker.Idle? && s.queue == {}
    && (gc ==> DeadAccounts(s.c) == {} && DeadCronJobs(s.c) == {})
  }

  /** At the end every Backup has everything, but possibly for the account; and the
      account is missing from an exposed start only. */
  lemma EndIsSettled(c0: Cluster, s: System, gc: bool)
    requires Ended(c0, s, gc)
    ensures forall k | k in c0.backups :: Nearly(c0, s.c, k, gc)
    ensures c0.backups == map[] || AccountWritten(s.c) || (gc && Exposed(c0) && DEFAULT_NAMESPACE !in s.c.accounts)
  {
    hide OnTrack, Coherent, Nearly, AccountWritten, Unremarkable, Untouched, AccountKept;
    if c0.backups != map[] && !AccountWritten(s.c) {
      var any :| any in c0.backups;
      var k :| Losing(c0, s, k, gc);
      assert c0.backups.Keys == {k};
    }
  }

  /** The cluster with the shared account's controller owner forgotten. */
  function Anonymous(c: Cluster): Cluster {
    if DEFAULT_NAMESPACE in c.accounts then
      c.(accounts := c.accounts[DEFAULT_NAMESPACE := c.accounts[DEFAULT_NAMESPACE].(owner := None)])
    else c
  }

  /** And with the generation of the CronJobs forgotten that had a dead owner in
      c0: those count from 1 again if the garbage collector was faster. */
  function Blurred(c0: Cluster, c: Cluster, gc: bool): Cluster {
    Anonymous(c).(cronJobs := map at | at in c.cronJobs :: BlurredCron(c0, at, c.cronJobs[at], gc))
  }

  function BlurredCron(c0: Cluster, at: Key, job: CronJob, gc: bool): CronJob {
    if DoomedCron(c0, at, gc) then job.(generation := 0) else job
  }

  /** And without the shared account. */
  function Accountless(c: Cluster): Cluster {
    c.(accounts := c.accounts - {DEFAULT_NAMESPACE})
  }

  ghost predicate Closed(c0: Cluster, c: Cluster, gc: bool) {
    && OnTrack(c0, c, gc) && (forall k | k in c0.backups :: Nearly(c0, c, k, gc))
    && (gc ==> DeadAccounts(c) == {} && DeadCronJobs(c) == {})
  }

  lemma EndIsDetermined(c0: Cluster, c1: Cluster, c2: Cluster, gc: bool)
    requires Closed(c0, c1, gc) && Closed(c0, c2, gc)
    ensures Accountless(Blurred(c0, c1, gc)) == Accountless(Blurred(c0, c2, gc))
    ensures c0.backups == map[] || (AccountWritten(c1) && AccountWritten(c2)) ==>
              Blurred(c0, c1, gc) == Blurred(c0, c2, gc)
  {
    hide Closed, AccountWritten;
    SameBackups(c0, c1, c2, gc);
    SameBindings(c0, c1, c2, gc);
    SameOtherAccounts(c0, c1, c2, gc);
    SameSharedAccount(c0, c1, c2, gc);
    SameCronJobs(c0, c1, c2, gc);
  }

  lemma SameBackups(c0: Cluster, c1: Cluster, c2: Cluster, gc: bool)
    requires Closed(c0, c1, gc) && Closed(c0, c2, gc)
    ensures c1.backups == c2.backups
  {
    hide BindingInPlace, CronWritten, CronOnTrack, CronKept, AccountsOnTrack, SharedOnTrack, DeadAccounts, DeadCronJobs;
    assert forall k | k in c1.backups :: Nearly(c0, c1, k, gc) && Nearly(c0, c2, k, gc);
  }

  lemma SameBindings(c0: Cluster, c1: Cluster, c2: Cluster, gc: bool)
    requires Closed(c0, c1, gc) && Closed(c0, c2, gc)
    ensures c1.role == c2.role && c1.bindings == c2.bindings
  {
    hide CronWritten, CronOnTrack, CronKept, AccountsOnTrack, DeadAccounts, DeadCronJobs, BindingName, TargetBinding;
    if c0.backups != map[] {
      var k :| k in c0.backups;
      assert Nearly(c0, c1, k, gc) && Nearly(c0, c2, k, gc);
      SameExcept(c1.bindings, c2.bindings, BindingName(DEFAULT_NAMESPACE));
    }
  }

  lemma SameExcept<V>(m: map<string, V>, m': map<string, V>, x: string)
    requires x in m && x in m' && m[x] == m'[x]
    requires m - {x} == m' - {x}
    ensures m == m'
  {
    forall y | y in m.Keys + m'.Keys
      ensures y in m && y in m' && m[y] == m'[y]
    {
      if y != x {
        assert y in m - {x} <==> y in m' - {x};
        assert (m - {x})[y] == (m' - {x})[y];
      }
    }
  }

  /** At the end an account that no pass has written is there if it was there and
      is not the collector's. */
  lemma KeptAccountAtEnd(c0: Cluster, c: Cluster, ns: string, gc: bool)
    requires Closed(c0, c, gc) && AccountKept(c0, c, ns, gc)
    ensures ns in c.accounts <==> ns in c0.accounts && !DoomedAccount(c0, ns, gc)
    ensures ns in c.accounts ==> c.accounts[ns] == c0.accounts[ns]
  {
    hide BindingInPlace, CronWritten, CronOnTrack, CronKept, AccountsOnTrack, SharedOnTrack, DeadCronJobs;
    SameAlive(c0, c);
    assert gc ==> ns !in DeadAccounts(c);
  }

  lemma SameOtherAccounts(c0: Cluster, c1: Cluster, c2: Cluster, gc: bool)
    requires Closed(c0, c1, gc) && Closed(c0, c2, gc)
    ensures c1.accounts - {DEFAULT_NAMESPACE} == c2.accounts - {DEFAULT_NAMESPACE}
    ensures Anonymous(c1).accounts - {DEFAULT_NAMESPACE} == Anonymous(c2).accounts - {DEFAULT_NAMESPACE}
  {
    hide Nearly, CronOnTrack, CronKept, SharedOnTrack, DeadAccounts, DeadCronJobs, DoomedAccount, AccountKept;
    var a1, a2 := c1.accounts - {DEFAULT_NAMESPACE}, c2.accounts - {DEFAULT_NAMESPACE};
    forall ns | ns in a1.Keys + a2.Keys
      ensures ns in a1 && ns in a2 && a1[ns] == a2[ns]
    {
      assert AccountKept(c0, c1, ns, gc) && AccountKept(c0, c2, ns, gc);
      KeptAccountAtEnd(c0, c1, ns, gc);
      KeptAccountAtEnd(c0, c2, ns, gc);
    }
    assert Anonymous(c1).accounts - {DEFAULT_NAMESPACE} == a1 && Anonymous(c2).accounts - {DEFAULT_NAMESPACE} == a2;
  }

  lemma SameSharedAccount(c0: Cluster, c1: Cluster, c2: Cluster, gc: bool)
    requires Closed(c0, c1, gc) && Closed(c0, c2, gc)
    ensures c0.backups == map[] || (AccountWritten(c1) && AccountWritten(c2)) ==>
              Anonymous(c1).accounts == Anonymous(c2).accounts
  {
    hide Nearly, CronOnTrack, CronKept, SharedOnTrack, DeadAccounts, DeadCronJobs, DoomedAccount, AccountKept;
    SameOtherAccounts(c0, c1, c2, gc);
    var a1, a2 := Anonymous(c1).accounts, Anonymous(c2).accounts;
    if c0.backups == map[] {
      KeptAccountAtEnd(c0, c1, DEFAULT_NAMESPACE, gc);
      KeptAccountAtEnd(c0, c2, DEFAULT_NAMESPACE, gc);
      if DEFAULT_NAMESPACE in c1.accounts {
        SameExcept(a1, a2, DEFAULT_NAMESPACE);
      } else {
        assert a1 == a1 - {DEFAULT_NAMESPACE} && a2 == a2 - {DEFAULT_NAMESPACE};
      }
    } else if AccountWritten(c1) && AccountWritten(c2) {
      SameExcept(a1, a2, DEFAULT_NAMESPACE);
    }
  }

  lemma KeptCronAtEnd(c0: Cluster, c: Cluster, at: Key, gc: bool)
    requires Closed(c0, c, gc) && CronKept(c0, c, at, gc)
    ensures at in c.cronJobs <==> at in c0.cronJobs && !DoomedCron(c0, at, gc)
    ensures at in c.cronJobs ==> c.cronJobs[at] == c0.cronJobs[at]
  {
    hide BindingInPlace, CronWritten, CronOnTrack, AccountsOnTrack, SharedOnTrack, DeadAccounts;
    SameAlive(c0, c);
    assert gc ==> at !in DeadCronJobs(c);
  }

  lemma WrittenCronAtEnd(c0: Cluster, c: Cluster, k: Key, gc: bool)
    requires k in c0.backups && CronWritten(c0, c, k, gc)
    ensures var at := RenderedCronKey(k);
            BlurredCron(c0, at, c.cronJobs[at], gc) == BlurredCron(c0, at, TargetCron(c0, k), gc)
  {
    hide NextCronGeneration, CronName, DeadOwner;
  }

  lemma SameCronJobs(c0: Cluster, c1: Cluster, c2: Cluster, gc: bool)
    requires Closed(c0, c1, gc) && Closed(c0, c2, gc)
    ensures Blurred(c0, c1, gc).cronJobs == Blurred(c0, c2, gc).cronJobs
  {
    hide BindingInPlace, CronKept, CronOnTrack, AccountsOnTrack, SharedOnTrack, DeadAccounts, DeadCronJobs,
      TargetCron, BlurredCron, RenderCronJob, DoomedCron, CronName;
    var m1, m2 := Blurred(c0, c1, gc).cronJobs, Blurred(c0, c2, gc).cronJobs;
    forall at | at in m1.Keys + m2.Keys
      ensures at in m1 && at in m2 && m1[at] == m2[at]
    {
      if Claimed(c0, at) {
        var k :| k in c0.backups && RenderedCronKey(k) == at;
        assert Nearly(c0, c1, k, gc) && Nearly(c0, c2, k, gc);
        WrittenCronAtEnd(c0, c1, k, gc);
        WrittenCronAtEnd(c0, c2, k, gc);
      } else {
        assert CronKept(c0, c1, at, gc) && CronKept(c0, c2, at, gc);
        KeptCronAtEnd(c0, c1, at, gc);
        KeptCronAtEnd(c0, c2, at, gc);
      }
    }
  }

  // ---- the theorems -------------------------------------------------------------------------

  /** Confluence of the passes: from any cluster with live Backups in "default",
      two executions without the collector that empty the queue, however they
      interleave the Backups, end in the same cluster but for the name of the
      shared account's owner; and every Backup has then all it needs. */
  lemma PassesCommute(run1: seq<System>, actions1: seq<Action>, run2: seq<System>, actions2: seq<Action>)
    requires Execution(run1, actions1) && Execution(run2, actions2)
    requires run1[0] == run2[0] && Start(run1[0])
    requires forall i :: 0 <= i < |actions1| ==> !Collects(actions1[i])
    requires forall i :: 0 <= i < |actions2| ==> !Collects(actions2[i])
    requires run1[|actions1|].queue == {} && run1[|actions1|].worker.Idle?
    requires run2[|actions2|].queue == {} && run2[|actions2|].worker.Idle?
    ensures Anonymous(run1[|actions1|].c) == Anonymous(run2[|actions2|].c)
    ensures forall k | k in run1[0].c.backups :: Settled(run1[0].c, run1[|actions1|].c, k, false)
  {
    hide OnTrack, Nearly, AccountInv, Start, DeadAccounts, DeadCronJobs, After, Coherent, PassOnTrack, AccountWritten,
      Exposed;
    var c0, c1, c2 := run1[0].c, run1[|actions1|].c, run2[|actions2|].c;
    InvHolds(run1, actions1, |actions1|, false);
    InvHolds(run2, actions2, |actions2|, false);
    EndIsSettled(c0, run1[|actions1|], false);
    EndIsSettled(c0, run2[|actions2|], false);
    EndIsDetermined(c0, c1, c2, false);
    NothingBlurred(c0, c1);
    NothingBlurred(c0, c2);
  }

  lemma NothingBlurred(c0: Cluster, c: Cluster)
    ensures Blurred(c0, c, false) == Anonymous(c)
  {
    assert Blurred(c0, c, false).cronJobs == c.cronJobs;
  }

  /** Confluence with the garbage collector at work between any two calls: from the
      same starts, two complete executions end in the same cluster but for the name
      of the shared account's owner, the generation of the CronJobs that had a dead
      owner at the start, and, if the start is exposed, the presence of the shared
      account.  Every Backup has then all it needs, from an exposed start possibly
      all but the account. */
  lemma SameEnd(run1: seq<System>, actions1: seq<Action>, run2: seq<System>, actions2: seq<Action>)
    requires Execution(run1, actions1) && Execution(run2, actions2)
    requires run1[0] == run2[0] && Start(run1[0])
    requires Quiescent(run1[|actions1|]) && Quiescent(run2[|actions2|])
    ensures var c0, c1, c2 := run1[0].c, run1[|actions1|].c, run2[|actions2|].c;
            && Accountless(Blurred(c0, c1, true)) == Accountless(Blurred(c0, c2, true))
            && (forall k | k in c0.backups :: Nearly(c0, c1, k, true))
            && (!Exposed(c0) ==> Blurred(c0, c1, true) == Blurred(c0, c2, true)
                                 && forall k | k in c0.backups :: Settled(c0, c1, k, true))
  {
    hide OnTrack, Nearly, AccountInv, Start, DeadAccounts, DeadCronJobs, After, Coherent, PassOnTrack, AccountWritten,
      Exposed, Quiescent;
    var c0, s1, s2 := run1[0].c, run1[|actions1|], run2[|actions2|];
    InvHolds(run1, actions1, |actions1|, true);
    InvHolds(run2, actions2, |actions2|, true);
    QuiescentMeansIdle(s1);
    QuiescentMeansIdle(s2);
    EndIsSettled(c0, s1, true);
    EndIsSettled(c0, s2, true);
    EndIsDetermined(c0, s1.c, s2.c, true);
  }

  // ---- the exemption for generations is needed ------------------------------------------------

  /** A CronJob with a dead owner at the start can end at generation 1, namely if
      the collector is first. */
  lemma EarlyCollectionRestarts(s: System, k: Key) returns (run: seq<System>, actions: seq<Action>)
    requires Start(s) && k in s.c.backups && DoomedCron(s.c, RenderedCronKey(k), true)
    ensures Execution(run, actions) && run[0] == s && Quiescent(run[|actions|])
    ensures var end := run[|actions|].c;
            RenderedCronKey(k) in end.cronJobs && end.cronJobs[RenderedCronKey(k)].generation == 1
  {
    hide Woken, BindingName, CronName;
    var a := CollectCronJob(RenderedCronKey(k));
    var s' := After(s, a);
    var rest, more := ReachesRest(s', true);
    run, actions := Prepend(s, a, rest, more);
    SameEnd(rest, more, rest, more);
    assert Nearly(s'.c, rest[|more|].c, k, true);
    assert run[|actions|] == rest[|more|];
  }

  /** It can also end at the generation that its update gives it, namely if the
      collector is late: then a pass has given it a live owner. */
  lemma LateCollectionKeeps(s: System, k: Key) returns (run: seq<System>, actions: seq<Action>)
    requires Start(s) && k in s.c.backups
    ensures Execution(run, actions) && run[0] == s && Quiescent(run[|actions|])
    ensures var end := run[|actions|].c;
            && RenderedCronKey(k) in end.cronJobs
            && end.cronJobs[RenderedCronKey(k)].generation == NextCronGeneration(s.c, k, s.c.backups[k])
  {
    hide After, Quiescent, Inv, AccountInv, Nearly;
    var run1, actions1 := ReachesRest(s, false);
    var mid := run1[|actions1|];
    PassesCommute(run1, actions1, run1, actions1);
    NearlyHasTarget(s.c, mid.c, k);
    InvHolds(run1, actions1, |actions1|, true);
    ExecutionsAreBounded(run1, actions1);
    var run2, actions2 := ReachesRest(mid, true);
    TargetStays(s.c, k, run2, actions2, |actions2|);
    run, actions := Chain(run1, actions1, run2, actions2);
  }

  /** Any two of these differ exactly if that generation is not 1: a CronJob at
      generation 1 whose spec is up to date is the exception. */
  lemma GenerationsDiffer(c: Cluster, k: Key)
    requires k in c.backups && RenderedCronKey(k) in c.cronJobs
    ensures var job := c.cronJobs[RenderedCronKey(k)];
            NextCronGeneration(c, k, c.backups[k]) == 1 <==>
            if job.spec == RenderCronSpec(k, c.backups[k]) then job.generation == 1 else job.generation == 0
  {
  }

  lemma NearlyHasTarget(c0: Cluster, c: Cluster, k: Key)
    requires k in c0.backups && Nearly(c0, c, k, false)
    ensures HasTarget(c0, c, k)
  {
  }

  predicate HasTarget(c0: Cluster, c: Cluster, k: Key)
    requires k in c0.backups
  {
    RenderedCronKey(k) in c.cronJobs && c.cronJobs[RenderedCronKey(k)] == TargetCron(c0, k)
  }

  lemma {:induction false} TargetStays(c0: Cluster, k: Key, run: seq<System>, actions: seq<Action>, i: nat)
    requires AllLive(c0) && k in c0.backups && Execution(run, actions) && i < |run|
    requires Inv(c0, run[0], true) && AccountInv(c0, run[0], true) && HasTarget(c0, run[0].c, k)
    ensures Inv(c0, run[i], true) && AccountInv(c0, run[i], true) && HasTarget(c0, run[i].c, k)
  {
    hide Inv, AccountInv, HasTarget, After;
    if i > 0 {
      TargetStays(c0, k, run, actions, i - 1);
      assert run[i] == After(run[i - 1], actions[i - 1]);
      InvIsKept(c0, run[i - 1], actions[i - 1], true);
      TargetKept(c0, run[i - 1], actions[i - 1], k);
    }
  }

  lemma TargetKept(c0: Cluster, s: System, a: Action, k: Key)
    requires AllLive(c0) && k in c0.backups && Inv(c0, s, true) && Possible(s, a) && HasTarget(c0, s.c, k)
    ensures HasTarget(c0, After(s, a).c, k)
  {
    hide Woken, BindingName, CronName, OnTrack, Nearly, PassOnTrack, AccountInv;
    PremiseHere(c0, s, true);
    SameKeys(c0, s.c, true);
    TargetIsAlive(c0, s.c, k);
    if a == Proceed && s.worker.site in {CreateCronJob, UpdateCronJob} {
      var j := s.worker.k;
      OneCronJobEach(s.c);
      if j == k { RewrittenTarget(c0, s.c, k); }
    }
  }

  lemma TargetIsAlive(c0: Cluster, c: Cluster, k: Key)
    requires k in c0.backups && OnTrack(c0, c, true) && k.ns == DEFAULT_NAMESPACE
    ensures !DeadOwner(c, DEFAULT_NAMESPACE, TargetCron(c0, k).owner)
  {
    assert BackupOnTrack(c0, c, k);
  }

  lemma RewrittenTarget(c0: Cluster, c: Cluster, k: Key)
    requires k in c0.backups && OnTrack(c0, c, true) && HasTarget(c0, c, k) && k in c.backups
    ensures HasTarget(c0, PutCronJob(c, k, c.backups[k]), k)
  {
    hide CronName;
    assert BackupOnTrack(c0, c, k);
  }
}

/** What deleting one Backup does to the others: the dependents it shares with
    them go with it, and nobody is told. */
module SharedDeletion {
  import opened Cluster
  import opened Reconcile
  import opened WorkQueue
  import opened Quiescence
  import I = Interleaving

  /** A cluster at rest in which the live Backup k has all four dependents, its
      CronJob as rendered, and our finalizer only.  Nothing is asked of the other
      Backups. */
  ghost predicate Steady(c: Cluster, k: Key) {
    && Calm(c) && DeadAccounts(c) == {} && DeadCronJobs(c) == {}
    && StageOf(c, k) == Full && CronRendered(c, k, c.backups[k])
    && !c.backups[k].deleting && c.backups[k].finalizers == {FINALIZER}
  }

  /** The user deletes k: the finalizer holds it, the generation moves. */
  function Deleted(c: Cluster, k: Key): Cluster
    requires k in c.backups
  {
    c.(backups := c.backups[k := c.backups[k].(deleting := true, generation := c.backups[k].generation + 1)])
  }

  /** The deletion itself wakes k and no other. */
  lemma DeletionWakes(c: Cluster, k: Key)
    requires k in c.backups
    ensures Woken(c, Deleted(c, k)) == {k}
  {
    var c' := Deleted(c, k);
    AccountUpdatesWakeNobody(c, c');
    OneCronJobWakes(c, c', k);
    assert Notifies(BackupGeneration(c, k), BackupGeneration(c', k));
    assert forall other | other != k :: BackupGeneration(c, other) == BackupGeneration(c', other);
    assert WokenByBackups(c, c') == {k};
  }

  /** The system right after the deletion. */
  function Begun(c: Cluster, k: Key): System
    requires k in c.backups
  {
    System(Deleted(c, k), {k}, I.Idle)
  }

  /** The pass that releases k is under way: past the account, the account is in
      k's name; at its last call the binding is gone; all else is as it was. */
  ghost predicate Releasing(c: Cluster, k: Key, s: System)
    requires k in c.backups
  {
    && s.worker.At? && s.worker.k == k && s.worker.b == Deleted(c, k).backups[k] && s.queue == {}
    && s.worker.site in {GetServiceAccount, UpdateServiceAccount, GetClusterRole, UpdateClusterRole, GetBinding,
                         UpdateBinding, GetCronJob, UpdateCronJob, DeleteBinding, RemoveFinalizer}
    && s.c.backups == Deleted(c, k).backups && s.c.cronJobs == c.cronJobs && s.c.role.Some?
    && s.c.accounts == (if Remaining(s.worker.site) <= 11 then c.accounts[k.ns := RenderServiceAccount(k, c.backups[k])]
                        else c.accounts)
    && s.c.bindings.Keys == c.bindings.Keys - if s.worker.site == RemoveFinalizer then {BindingName(k.ns)} else {}
  }

  /** After the release of k: the binding is gone, the account is k's if it still
      stands, and only k's name is ever queued. */
  ghost predicate Starving(c: Cluster, k: Key, s: System)
    requires k in c.backups
  {
    && s.queue <= {k} && s.worker.Idle?
    && s.c.backups == c.backups - {k}
    && BindingName(DEFAULT_NAMESPACE) !in s.c.bindings
    && (forall ns | ns in s.c.accounts ::
          ns in c.accounts
          && s.c.accounts[ns] == if ns == k.ns then RenderServiceAccount(k, c.backups[k]) else c.accounts[ns])
    && (forall at | at in s.c.cronJobs :: at in c.cronJobs && s.c.cronJobs[at] == c.cronJobs[at])
  }

  /** In a cluster without k, what is dead now and was not before was k's. */
  lemma OnlyKsOrphans(c: Cluster, c': Cluster, k: Key, ns: string, owner: Option<OwnerRef>)
    requires k in c.backups && c'.backups == c.backups - {k}
    requires DeadOwner(c', ns, owner) && !DeadOwner(c, ns, owner)
    ensures OwnerKeys(ns, owner) == {k}
  {
  }

  lemma RewrittenCron(c: Cluster, k: Key, b: Backup)
    requires k in c.backups && CronRendered(c, k, c.backups[k])
    requires b.uid == c.backups[k].uid && b.spec == c.backups[k].spec
    ensures PutCronJob(c, k, b).cronJobs == c.cronJobs
  {
  }

  /** Until k is released no object has a dead owner, so the collector has nothing
      to do. */
  lemma NothingToCollect(c: Cluster, k: Key, s: System, a: Action)
    requires Steady(c, k) && (s == Begun(c, k) || Releasing(c, k, s)) && Possible(s, a)
    ensures a == if s.worker.At? then Proceed else Take(k)
  {
    hide BindingName, CronName;
    var c1 := Deleted(c, k);
    assert forall ns, owner :: DeadOwner(c1, ns, owner) == DeadOwner(c, ns, owner);
    assert forall ns, owner :: DeadOwner(s.c, ns, owner) == DeadOwner(c1, ns, owner);
    assert forall ns | ns in c.accounts :: ns !in DeadAccounts(c);
    assert forall at | at in c.cronJobs :: at !in DeadCronJobs(c);
  }

  lemma ReleasingStep(c: Cluster, k: Key, s: System)
    requires Steady(c, k) && Releasing(c, k, s)
    ensures var s' := After(s, Proceed); Releasing(c, k, s') || Starving(c, k, s')
  {
    hide After, Starving, Releasing;
    ReleasingIsBusy(c, k, s);
    if s.worker.site == RemoveFinalizer {
      LastReleasingStep(c, k, s);
    } else {
      ReleasingGoesOn(c, k, s);
    }
  }

  lemma LastReleasingStep(c: Cluster, k: Key, s: System)
    requires Steady(c, k) && Releasing(c, k, s) && s.worker.site == RemoveFinalizer
    ensures Starving(c, k, After(s, Proceed))
  {
    hide Woken, BindingName, CronName, RenderCronJob, DeadAccounts, DeadCronJobs;
    assert s.worker.b.finalizers - {FINALIZER} == {};
    assert Deleted(c, k).backups - {k} == c.backups - {k};
    ReleaseWakes(s.c, k);
  }

  lemma ReleasingGoesOn(c: Cluster, k: Key, s: System)
    requires Steady(c, k) && Releasing(c, k, s) && s.worker.site != RemoveFinalizer
    ensures Releasing(c, k, After(s, Proceed))
  {
    hide Woken, BindingName, CronName, RenderCronJob, NextCronGeneration, DeadAccounts, DeadCronJobs, RenderedCronKey;
    var s', b := After(s, Proceed), s.worker.b;
    if s.worker.site == UpdateServiceAccount {
      AccountWriteWakes(s.c, k, b);
    } else if s.worker.site == UpdateCronJob {
      SameCronAgain(c, s.c, k, b);
    } else {
      UnwatchedWakesNobody(s.c, s'.c);
    }
  }

  lemma SameCronAgain(c: Cluster, c': Cluster, k: Key, b: Backup)
    requires k in c.backups && CronRendered(c, k, c.backups[k]) && c'.cronJobs == c.cronJobs
    requires b.uid == c.backups[k].uid && b.spec == c.backups[k].spec
    ensures PutCronJob(c', k, b) == c' && Woken(c', c') == {}
  {
    RewrittenCron(c, k, b);
    UnwatchedWakesNobody(c', c');
  }

  lemma StarvingIsKept(c: Cluster, k: Key, s: System, a: Action)
    requires Steady(c, k) && Starving(c, k, s) && Possible(s, a)
    ensures Starving(c, k, After(s, a))
  {
    hide Woken, BindingName, CronName;
    var s' := After(s, a);
    match a
    case Take(_) =>
    case CollectAccount(ns) =>
      CollectedAccountWakes(s.c, ns);
      assert ns !in DeadAccounts(c);
    case CollectCronJob(at) =>
      CollectedCronJobWakes(s.c, at);
      assert at !in DeadCronJobs(c);
      OnlyKsOrphans(c, s.c, k, at.ns, s.c.cronJobs[at].owner);
  }

  lemma {:induction false} ReleasedInTheEnd(c: Cluster, k: Key, run: seq<System>, actions: seq<Action>, i: nat)
    requires Steady(c, k) && Execution(run, actions) && run[0] == Begun(c, k) && 0 < i < |run|
    ensures Releasing(c, k, run[i]) || Starving(c, k, run[i])
  {
    hide After, Releasing, Starving;
    assert run[i] == After(run[i - 1], actions[i - 1]);
    if i == 1 {
      FirstStep(c, k, actions[0]);
    } else {
      ReleasedInTheEnd(c, k, run, actions, i - 1);
      if Releasing(c, k, run[i - 1]) {
        NothingToCollect(c, k, run[i - 1], actions[i - 1]);
        ReleasingIsBusy(c, k, run[i - 1]);
        ReleasingStep(c, k, run[i - 1]);
      } else {
        StarvingIsKept(c, k, run[i - 1], actions[i - 1]);
      }
    }
  }

  lemma FirstStep(c: Cluster, k: Key, a: Action)
    requires Steady(c, k) && Possible(Begun(c, k), a)
    ensures Releasing(c, k, After(Begun(c, k), a))
  {
    hide BindingName, CronName;
    NothingToCollect(c, k, Begun(c, k), a);
  }

  lemma ReleasingIsBusy(c: Cluster, k: Key, s: System)
    requires k in c.backups && Releasing(c, k, s)
    ensures s.worker.At? && s.worker.site != GetBackup
  {
  }

  /** From a steady cluster, delete one Backup and let everything come to rest, the
      collector at work between any two calls.  Every such execution ends with that
      Backup gone, and with the binding and the ServiceAccount gone too.  So the
      dependents of the remaining Backups are all still there if and only if there
      are no remaining Backups. */
  lemma DeletionStarvesSiblings(c: Cluster, k: Key, run: seq<System>, actions: seq<Action>)
    requires Steady(c, k)
    requires Execution(run, actions) && run[0] == System(Deleted(c, k), Woken(c, Deleted(c, k)), I.Idle)
    requires Quiescent(run[|actions|])
    ensures var end := run[|actions|].c;
            && end.backups == c.backups - {k}
            && BindingName(DEFAULT_NAMESPACE) !in end.bindings
            && DEFAULT_NAMESPACE !in end.accounts
            && ((forall other | other in end.backups :: StageOf(end, other) == Full) <==> c.backups.Keys == {k})
  {
    hide BindingName, CronName, After, Woken, Releasing;
    DeletionWakes(c, k);
    var last := run[|actions|];
    assert !Possible(last, Take(k)) && !Possible(last, Proceed);
    assert |actions| > 0;
    ReleasedInTheEnd(c, k, run, actions, |actions|);
    if Releasing(c, k, last) { ReleasingIsBusy(c, k, last); }
    QuiescentMeansIdle(last);
    assert DEFAULT_NAMESPACE !in DeadAccounts(last.c);
    if other :| other in c.backups && other != k {
      assert other in last.c.backups && StageOf(last.c, other) != Full;
    }
  }
}

/** Every error-free execution of the controller and the garbage collector ends,
    within a number of steps read off its first state. */
module Quiescence {
  import opened Cluster
  import opened Reconcile
  import opened WorkQueue
  import I = Interleaving

  // ---- what one step wakes -----------------------------------------------------

  /** Rewriting objects of an unchanged set of ServiceAccounts wakes nobody:
      siblings that take the shared account's ownership from one another do not
      trigger each other. */
  lemma AccountUpdatesWakeNobody(c: Cluster, c': Cluster)
    requires c'.accounts.Keys == c.accounts.Keys
    ensures WokenByAccounts(c, c') == {}
  {
  }

  lemma SameBackupsWakeNobody(c: Cluster, c': Cluster)
    requires c'.backups.Keys == c.backups.Keys
    requires forall k | k in c.backups :: c'.backups[k].generation == c.backups[k].generation
    ensures WokenByBackups(c, c') == {}
  {
  }

  lemma ReleaseWakesItself(c: Cluster, c': Cluster, k: Key)
    requires c'.backups == c.backups - {k}
    ensures WokenByBackups(c, c') <= {k}
  {
  }

  /** A write to one CronJob wakes its owners, before and after, if it moves the
      generation. */
  lemma OneCronJobWakes(c: Cluster, c': Cluster, at: Key)
    requires forall other | other != at ::
               (other in c.cronJobs <==> other in c'.cronJobs)
               && (other in c.cronJobs ==> c'.cronJobs[other] == c.cronJobs[other])
    ensures WokenByCronJobs(c, c') <= CronOwners(c, at) + CronOwners(c', at)
    ensures CronGeneration(c, at) == CronGeneration(c', at) ==> WokenByCronJobs(c, c') == {}
    ensures CronGeneration(c, at) != CronGeneration(c', at) ==> CronOwners(c', at) <= WokenByCronJobs(c, c')
  {
    assert forall other | other != at :: CronGeneration(c, other) == CronGeneration(c', other);
    assert forall other | other != at :: !Notifies(CronGeneration(c, other), CronGeneration(c', other));
  }

  lemma OneAccountWakes(c: Cluster, c': Cluster, ns: string)
    requires forall other | other != ns :: other in c.accounts <==> other in c'.accounts
    ensures WokenByAccounts(c, c') <= AccountOwners(c, ns) + AccountOwners(c', ns)
    ensures ns in c.accounts && ns !in c'.accounts ==> AccountOwners(c, ns) <= WokenByAccounts(c, c')
  {
    assert forall other | other != ns :: !Notifies(AccountGeneration(c, other), AccountGeneration(c', other));
  }

  lemma OwnersAreFew(ns: string, owner: Option<OwnerRef>)
    ensures |OwnerKeys(ns, owner)| <= 1
  {
  }

  /** Writes that leave all watched objects alone. */
  lemma UnwatchedWakesNobody(c: Cluster, c': Cluster)
    requires c'.backups == c.backups && c'.accounts == c.accounts && c'.cronJobs == c.cronJobs
    ensures Woken(c, c') == {}
  {
    SameBackupsWakeNobody(c, c');
    AccountUpdatesWakeNobody(c, c');
    OneCronJobWakes(c, c', Key("", ""));
  }

  lemma AccountWriteWakes(c: Cluster, k: Key, b: Backup)
    ensures var c' := PutServiceAccount(c, k, b);
            Woken(c, c') <= if k.ns in c.accounts then {} else {k}
  {
    var c' := PutServiceAccount(c, k, b);
    SameBackupsWakeNobody(c, c');
    OneCronJobWakes(c, c', Key("", ""));
    if k.ns in c.accounts {
      assert c'.accounts.Keys == c.accounts.Keys;
      AccountUpdatesWakeNobody(c, c');
    } else {
      OneAccountWakes(c, c', k.ns);
    }
  }

  /** Writing k's CronJob wakes k, and the previous owner, if the CronJob was stale
      or missing, and nobody otherwise. */
  lemma CronWriteWakes(c: Cluster, k: Key)
    requires k in c.backups && k.ns == DEFAULT_NAMESPACE
    ensures var c' := PutCronJob(c, k, c.backups[k]);
            && |Woken(c, c')| <= (if k in Stale(c) then 2 else if k in Cronless(c) then 1 else 0)
            && (k in Cronless(c) ==> Woken(c, c') <= {k})
            && (k in Stale(c) ==> k in Woken(c, c'))
  {
    hide CronName;
    var at, c' := RenderedCronKey(k), PutCronJob(c, k, c.backups[k]);
    SameBackupsWakeNobody(c, c');
    AccountUpdatesWakeNobody(c, c');
    OneCronJobWakes(c, c', at);
    assert CronOwners(c', at) == {k};
    assert Woken(c, c') == WokenByCronJobs(c, c');
    if at in c.cronJobs { OwnersAreFew(at.ns, c.cronJobs[at].owner); }
    UnionSize(CronOwners(c, at), {k});
    SubsetSize(Woken(c, c'), CronOwners(c, at) + {k});
  }

  lemma FinalizerWriteWakesNobody(c: Cluster, c': Cluster, k: Key, f: set<string>)
    requires k in c.backups && c' == c.(backups := c.backups[k := c.backups[k].(finalizers := f)])
    ensures Woken(c, c') == {}
  {
    SameBackupsWakeNobody(c, c');
    AccountUpdatesWakeNobody(c, c');
    OneCronJobWakes(c, c', Key("", ""));
  }

  lemma ReleaseWakes(c: Cluster, k: Key)
    requires k in c.backups
    ensures Woken(c, DropFinalizer(c, k, c.backups[k])) <= {k}
  {
    var b, c' := c.backups[k], DropFinalizer(c, k, c.backups[k]);
    if k in c'.backups {
      FinalizerWriteWakesNobody(c, c', k, b.finalizers - {FINALIZER});
    } else {
      ReleaseWakesItself(c, c', k);
      AccountUpdatesWakeNobody(c, c');
      OneCronJobWakes(c, c', Key("", ""));
    }
  }

  lemma CollectedAccountWakes(c: Cluster, ns: string)
    ensures var c' := c.(accounts := c.accounts - {ns});
            |Woken(c, c')| <= 1 && Woken(c, c') <= AccountOwners(c, ns)
  {
    var c' := c.(accounts := c.accounts - {ns});
    SameBackupsWakeNobody(c, c');
    OneAccountWakes(c, c', ns);
    OneCronJobWakes(c, c', Key("", ""));
    if ns in c.accounts {
      OwnersAreFew(ns, c.accounts[ns].owner);
    }
    SubsetSize(Woken(c, c'), AccountOwners(c, ns));
  }

  lemma CollectedCronJobWakes(c: Cluster, at: Key)
    ensures var c' := c.(cronJobs := c.cronJobs - {at});
            |Woken(c, c')| <= 1 && Woken(c, c') <= CronOwners(c, at)
  {
    var c' := c.(cronJobs := c.cronJobs - {at});
    SameBackupsWakeNobody(c, c');
    AccountUpdatesWakeNobody(c, c');
    OneCronJobWakes(c, c', at);
    if at in c.cronJobs {
      OwnersAreFew(at.ns, c.cronJobs[at].owner);
    }
    SubsetSize(Woken(c, c'), CronOwners(c, at));
  }

  /** A call of k's pass puts back into the queue at most k and who is woken. */
  lemma QueueGrows(queue: set<Key>, woken: set<Key>, again: set<Key>, k: Key)
    requires again <= {k}
    ensures |queue + woken + again| <= |queue| + |woken| + |again|
    ensures woken <= {k} ==> |queue + woken + again| <= |queue| + 1
    ensures woken + again == {} ==> queue + woken + again == queue
  {
    UnionSize(queue, woken + again);
    UnionSize(woken, again);
    assert queue + (woken + again) == queue + woken + again;
    if woken <= {k} {
      SubsetSize(woken + again, {k});
    }
  }

  // ---- a whole pass on the queue --------------------------------------------------

  function WokenAlong(run: seq<System>): set<Key> {
    if |run| < 2 then {} else Woken(run[0].c, run[1].c) + WokenAlong(run[1..])
  }

  /** A pass that is carried through without the collector ends as Pass says, in the
      cluster and in its result: the request is put back exactly if the result is
      Requeue or Error, besides the requests that the pass's own writes cause. */
  lemma PassOnQueue(s: System, k: Key) returns (run: seq<System>, actions: seq<Action>)
    requires s.worker.Idle? && k in s.queue
    ensures Execution(run, actions) && run[0] == s && actions != [] && actions[0] == Take(k)
    ensures forall i :: 0 < i < |actions| ==> actions[i] == Proceed
    ensures var end, p := run[|actions|], Pass(s.c, k, Reliable());
            && end.c == p.c && end.worker.Idle?
            && end.queue == s.queue - {k} + WokenAlong(run) + (if p.result == Done then {} else {k})
  {
    hide Woken, Call, Drive;
    var s1 := After(s, Take(k));
    UnwatchedWakesNobody(s.c, s.c);
    if k in s.c.backups {
      var rest, more := DriveOnQueue(s1);
      run, actions := Prepend(s, Take(k), rest, more);
      assert run[1..] == rest;
    } else {
      run, actions := [s, s1], [Take(k)];
      assert run[1..] == [s1];
    }
  }

  lemma {:induction false} DriveOnQueue(s: System) returns (run: seq<System>, actions: seq<Action>)
    requires s.worker.At? && s.worker.site != GetBackup
    ensures Execution(run, actions) && run[0] == s
    ensures forall i :: 0 <= i < |actions| ==> actions[i] == Proceed
    ensures var end, p := run[|actions|], Drive(s.c, s.worker.site, s.worker.k, s.worker.b, Reliable());
            && end.c == p.c && end.worker.Idle?
            && end.queue == s.queue + WokenAlong(run) + (if p.result == Done then {} else {s.worker.k})
    decreases Remaining(s.worker.site)
  {
    hide Woken, Call;
    var s' := After(s, Proceed);
    ForwardOnly(s.c, s.worker.site, s.worker.k, s.worker.b);
    if s'.worker.At? {
      var rest, more := DriveOnQueue(s');
      run, actions := Prepend(s, Proceed, rest, more);
      assert run[1..] == rest;
    } else {
      run, actions := [s, s'], [Proceed];
      assert run[1..] == [s'];
    }
  }

  // ---- what one write changes in the census ---------------------------------------

  lemma MapSizes(c: Cluster)
    ensures |c.accounts| == |c.accounts.Keys| && |c.cronJobs| == |c.cronJobs.Keys|
  {
  }

  lemma SetsWithoutAccounts(c: Cluster, c': Cluster)
    requires c'.backups == c.backups && c'.cronJobs == c.cronJobs
    ensures Waiting(c') == Waiting(c) && Stale(c') == Stale(c) && Cronless(c') == Cronless(c)
    ensures DeadCronJobs(c') == DeadCronJobs(c)
    ensures forall n, o :: DeadOwner(c', n, o) == DeadOwner(c, n, o)
  {
    hide RenderCronSpec, RenderedCronKey;
    assert forall n, o :: DeadOwner(c', n, o) == DeadOwner(c, n, o);
  }

  lemma CensusOfAccountWrite(c: Cluster, k: Key)
    requires k in c.backups
    ensures var c' := PutServiceAccount(c, k, c.backups[k]);
            && Waiting(c') == Waiting(c) && Stale(c') == Stale(c) && Cronless(c') == Cronless(c)
            && DeadCronJobs(c') == DeadCronJobs(c) && |DeadAccounts(c')| <= |DeadAccounts(c)|
            && |c'.accounts| == |c.accounts| + if k.ns in c.accounts then 0 else 1
  {
    hide Waiting, Stale, Cronless, DeadCronJobs;
    var c' := PutServiceAccount(c, k, c.backups[k]);
    SetsWithoutAccounts(c, c');
    SubsetSize(DeadAccounts(c'), DeadAccounts(c));
    OneMoreEntry(c.accounts, k.ns, RenderServiceAccount(k, c.backups[k]));
  }

  lemma OneCronJobEach(c: Cluster)
    requires Calm(c)
    ensures forall k, k' :: k in c.backups && k' in c.backups && RenderedCronKey(k) == RenderedCronKey(k') ==> k == k'
  {
    forall k, k' | k in c.backups && k' in c.backups && RenderedCronKey(k) == RenderedCronKey(k')
      ensures k == k'
    {
      CronNameInjective(k.name, k'.name);
    }
  }

  lemma CensusOfCronWrite(c: Cluster, k: Key)
    requires Calm(c) && k in c.backups
    ensures var c' := PutCronJob(c, k, c.backups[k]);
            && Waiting(c') == Waiting(c) && |Stale(c')| == |Stale(c)| - (if k in Stale(c) then 1 else 0)
            && |Cronless(c')| == |Cronless(c)| - (if RenderedCronKey(k) in c.cronJobs then 0 else 1)
            && DeadAccounts(c') == DeadAccounts(c) && |DeadCronJobs(c')| <= |DeadCronJobs(c)|
            && |c'.cronJobs| == |c.cronJobs| + if RenderedCronKey(k) in c.cronJobs then 0 else 1
  {
    hide CronName, NextCronGeneration, RenderCronJob, Stale, Cronless, DeadCronJobs, DeadAccounts;
    var c' := PutCronJob(c, k, c.backups[k]);
    OneCronJobEach(c);
    CronSetsAfterWrite(c, c', k, NextCronGeneration(c, k, c.backups[k]));
    DeadAfterCronWrite(c, c', k, NextCronGeneration(c, k, c.backups[k]));
    CronlessMeans(c, k);
    SubsetSize(DeadCronJobs(c'), DeadCronJobs(c));
    OneMoreEntry(c.cronJobs, RenderedCronKey(k), c'.cronJobs[RenderedCronKey(k)]);
  }

  lemma CronlessMeans(c: Cluster, k: Key)
    requires k in c.backups
    ensures k in Cronless(c) <==> RenderedCronKey(k) !in c.cronJobs
    ensures k in Stale(c) ==> k !in Cronless(c)
  {
  }

  lemma OneMoreEntry<K, V>(m: map<K, V>, x: K, v: V)
    ensures |m[x := v]| == |m| + if x in m then 0 else 1
  {
    assert m[x := v].Keys == m.Keys + {x};
    assert |m.Keys| == |m| && |m[x := v].Keys| == |m[x := v]|;
  }

  lemma DeadAfterCronWrite(c: Cluster, c': Cluster, k: Key, generation: nat)
    requires k in c.backups && k.ns == DEFAULT_NAMESPACE && c'.backups == c.backups && c'.accounts == c.accounts
    requires c'.cronJobs == c.cronJobs[RenderedCronKey(k) := RenderCronJob(k, c.backups[k], generation)]
    ensures DeadAccounts(c') == DeadAccounts(c) && DeadCronJobs(c') <= DeadCronJobs(c)
  {
    hide CronName;
    assert forall n, o :: DeadOwner(c', n, o) == DeadOwner(c, n, o);
  }

  lemma CronSetsAfterWrite(c: Cluster, c': Cluster, k: Key, generation: nat)
    requires k in c.backups && c'.backups == c.backups
    requires c'.cronJobs == c.cronJobs[RenderedCronKey(k) := RenderCronJob(k, c.backups[k], generation)]
    requires forall j | j in c.backups && j != k :: RenderedCronKey(j) != RenderedCronKey(k)
    ensures Stale(c') == Stale(c) - {k} && Cronless(c') == Cronless(c) - {k}
  {
    hide RenderCronSpec, RenderedCronKey;
  }

  lemma CensusOfFinalizer(c: Cluster, c': Cluster, k: Key, f: set<string>)
    requires k in c.backups && c'.accounts == c.accounts && c'.cronJobs == c.cronJobs
    requires c'.backups == c.backups[k := c.backups[k].(finalizers := f)]
    ensures Stale(c') == Stale(c) && Cronless(c') == Cronless(c)
    ensures DeadAccounts(c') == DeadAccounts(c) && DeadCronJobs(c') == DeadCronJobs(c)
    ensures FINALIZER !in f ==> Waiting(c') == Waiting(c) - {k}
    ensures !c.backups[k].deleting ==> Waiting(c') == Waiting(c)
  {
    hide RenderedCronKey;
    assert forall n, o :: DeadOwner(c', n, o) == DeadOwner(c, n, o);
  }

  lemma CensusOfRelease(c: Cluster, k: Key)
    requires k in c.backups && c.backups[k].deleting && FINALIZER in c.backups[k].finalizers
    ensures var c' := DropFinalizer(c, k, c.backups[k]);
            && |Waiting(c')| == |Waiting(c)| - 1
            && |Stale(c')| <= |Stale(c)| && |Cronless(c')| <= |Cronless(c)|
            && |DeadAccounts(c')| <= |c.accounts| && |DeadCronJobs(c')| <= |c.cronJobs|
  {
    hide RenderCronSpec, RenderedCronKey;
    var b, c' := c.backups[k], DropFinalizer(c, k, c.backups[k]);
    if k in c'.backups {
      CensusOfFinalizer(c, c', k, b.finalizers - {FINALIZER});
    }
    assert k in Waiting(c) && Waiting(c') == Waiting(c) - {k};
    SubsetSize(Stale(c'), Stale(c));
    SubsetSize(Cronless(c'), Cronless(c));
    SubsetSize(DeadAccounts(c'), c.accounts.Keys);
    SubsetSize(DeadCronJobs(c'), c.cronJobs.Keys);
    MapSizes(c);
  }

  lemma CensusOfCollectedAccount(c: Cluster, ns: string)
    requires ns in DeadAccounts(c)
    ensures var c' := c.(accounts := c.accounts - {ns});
            && Waiting(c') == Waiting(c) && Stale(c') == Stale(c) && Cronless(c') == Cronless(c)
            && |DeadAccounts(c')| == |DeadAccounts(c)| - 1 && DeadCronJobs(c') == DeadCronJobs(c)
            && |c'.accounts| == |c.accounts| - 1
  {
    var c' := c.(accounts := c.accounts - {ns});
    assert forall n, o :: DeadOwner(c', n, o) == DeadOwner(c, n, o);
    assert DeadAccounts(c') == DeadAccounts(c) - {ns};
    assert c'.accounts.Keys == c.accounts.Keys - {ns};
    MapSizes(c);
    MapSizes(c');
  }

  lemma CensusOfCollectedCronJob(c: Cluster, at: Key)
    requires Calm(c) && at in DeadCronJobs(c)
    ensures var c' := c.(cronJobs := c.cronJobs - {at});
            && Waiting(c') == Waiting(c) && |Stale(c')| <= |Stale(c)| && |Cronless(c')| <= |Cronless(c)| + 1
            && DeadAccounts(c') == DeadAccounts(c) && |DeadCronJobs(c')| == |DeadCronJobs(c)| - 1
            && |c'.cronJobs| == |c.cronJobs| - 1
  {
    hide RenderCronSpec;
    var c' := c.(cronJobs := c.cronJobs - {at});
    assert forall n, o :: DeadOwner(c', n, o) == DeadOwner(c, n, o);
    assert DeadCronJobs(c') == DeadCronJobs(c) - {at};
    assert c'.cronJobs.Keys == c.cronJobs.Keys - {at};
    MapSizes(c);
    MapSizes(c');
    SubsetSize(Stale(c'), Stale(c));
    OneMoreCronless(c, c', at);
  }

  lemma OneMoreCronless(c: Cluster, c': Cluster, at: Key)
    requires Calm(c) && c'.backups == c.backups && c'.cronJobs == c.cronJobs - {at}
    ensures |Cronless(c')| <= |Cronless(c)| + 1
  {
    OneCronJobEach(c);
    if k :| k in Cronless(c') && k !in Cronless(c) {
      assert Cronless(c') <= Cronless(c) + {k};
      SubsetSize(Cronless(c'), Cronless(c) + {k});
    } else {
      SubsetSize(Cronless(c'), Cronless(c));
    }
  }

  // ---- the weight, call by call -------------------------------------------------------

  /** How the weight moves in one call of a pass: it never grows, and it drops
      when the pass ends. */
  predicate Progress(s: System, s': System) {
    && Weight(Count(s')) <= Weight(Count(s))
    && (s'.worker.Idle? ==> Weight(Count(s')) < Weight(Count(s)))
  }

  /** A busy worker and what its next call makes of the system. */
  ghost predicate Calls(s: System, s': System, site: CallSite, c': Cluster, next: Next) {
    && Calm(s.c) && Coherent(s) && s.worker.At? && s.worker.site == site
    && s' == System(c', s.queue + Woken(s.c, c') + Again(next, s.worker.k), Onwards(next, s.worker.k, s.worker.b))
  }

  /** Reads, and the update of an account that is no longer there. */
  lemma ReadProgress(s: System, s': System, site: CallSite, next: CallSite)
    requires Calls(s, s', site, s.c, Jump(next))
    requires site != UpdateCronJob && site != RemoveFinalizer && next != RemoveFinalizer
    requires next == UpdateCronJob ==> RenderedCronKey(s.worker.k) in s.c.cronJobs
    ensures Progress(s, s')
  {
    hide Weight, Waiting, Stale, Cronless, DeadAccounts, DeadCronJobs, Woken, BindingName, RenderedCronKey;
    UnwatchedWakesNobody(s.c, s.c);
    QueueGrows(s.queue, Woken(s.c, s.c), {}, s.worker.k);
    MinorKept(Count(s), Count(s'));
  }

  lemma FailedUpdateProgress(s: System, s': System)
    requires Calls(s, s', UpdateCronJob, s.c, Return(Error)) && Failing(s)
    ensures Progress(s, s')
  {
    hide Weight, Waiting, Stale, Cronless, DeadAccounts, DeadCronJobs, Woken, BindingName, RenderedCronKey;
    UnwatchedWakesNobody(s.c, s.c);
    QueueGrows(s.queue, Woken(s.c, s.c), {s.worker.k}, s.worker.k);
    MinorKept(Count(s), Count(s'));
  }

  lemma AccountProgress(s: System, s': System, site: CallSite, next: Next)
    requires s.worker.At? && site in {CreateServiceAccount, UpdateServiceAccount}
    requires next == if site == CreateServiceAccount then Return(Requeue) else Jump(GetClusterRole)
    requires Calls(s, s', site, PutServiceAccount(s.c, s.worker.k, s.worker.b), next)
    requires site == UpdateServiceAccount ==> s.worker.k.ns in s.c.accounts
    ensures Progress(s, s')
  {
    hide Weight, Count, Calls;
    AccountCounts(s, s', site, next);
    MinorKept(Count(s), Count(s'));
  }

  lemma AccountCounts(s: System, s': System, site: CallSite, next: Next)
    requires s.worker.At? && site in {CreateServiceAccount, UpdateServiceAccount}
    requires next == if site == CreateServiceAccount then Return(Requeue) else Jump(GetClusterRole)
    requires Calls(s, s', site, PutServiceAccount(s.c, s.worker.k, s.worker.b), next)
    requires site == UpdateServiceAccount ==> s.worker.k.ns in s.c.accounts
    ensures var n, n' := Count(s), Count(s');
            && n'.waiting == n.waiting && n'.dead <= n.dead && n'.stale == n.stale && n'.failing == n.failing == 0
            && n'.ownable + n'.missing == n.ownable + n.missing && n'.requests <= n.requests
            && n'.missing == n.missing - (if s'.worker.Idle? then 1 else 0)
  {
    hide Waiting, Stale, Cronless, DeadAccounts, DeadCronJobs, Woken, BindingName, RenderedCronKey;
    var c, c', k := s.c, s'.c, s.worker.k;
    AccountWriteWakes(c, k, s.worker.b);
    CensusOfAccountWrite(c, k);
    QueueGrows(s.queue, Woken(c, c'), Again(next, k), k);
  }

  /** The role or the binding is written, or the binding deleted. */
  lemma SharedProgress(s: System, s': System, site: CallSite, c': Cluster, next: Next)
    requires Calls(s, s', site, c', next)
    requires c'.backups == s.c.backups && c'.accounts == s.c.accounts && c'.cronJobs == s.c.cronJobs
    requires site != UpdateCronJob && next != Jump(UpdateCronJob)
    requires if next.Jump? then MissingShared(s') == MissingShared(s)
             else next == Return(Requeue) && MissingShared(s') == MissingShared(s) - 1
    ensures Progress(s, s')
  {
    hide Weight, Waiting, Stale, Cronless, DeadAccounts, DeadCronJobs, Woken, BindingName, RenderedCronKey,
      MissingShared;
    var c, k := s.c, s.worker.k;
    UnwatchedWakesNobody(c, c');
    SameSets(c, c');
    QueueGrows(s.queue, Woken(c, c'), Again(next, k), k);
    MinorKept(Count(s), Count(s'));
  }

  lemma SameSets(c: Cluster, c': Cluster)
    requires c'.backups == c.backups && c'.accounts == c.accounts && c'.cronJobs == c.cronJobs
    ensures Waiting(c') == Waiting(c) && Stale(c') == Stale(c) && Cronless(c') == Cronless(c)
    ensures DeadAccounts(c') == DeadAccounts(c) && DeadCronJobs(c') == DeadCronJobs(c)
  {
    hide Waiting, Stale, Cronless, DeadCronJobs;
    SetsWithoutAccounts(c, c');
  }

  lemma CronProgress(s: System, s': System, site: CallSite, next: Next)
    requires s.worker.At? && site in {CreateCronJob, UpdateCronJob}
    requires next == if site == CreateCronJob then Return(Requeue) else FinalizerEntry(s.worker.b)
    requires Calls(s, s', site, PutCronJob(s.c, s.worker.k, s.worker.b), next)
    requires site == UpdateCronJob ==> RenderedCronKey(s.worker.k) in s.c.cronJobs
    ensures Progress(s, s')
  {
    hide Weight, Count, Calls;
    CronCounts(s, s', site, next);
    MinorKept(Count(s), Count(s'));
  }

  lemma CronCounts(s: System, s': System, site: CallSite, next: Next)
    requires s.worker.At? && site in {CreateCronJob, UpdateCronJob}
    requires next == if site == CreateCronJob then Return(Requeue) else FinalizerEntry(s.worker.b)
    requires Calls(s, s', site, PutCronJob(s.c, s.worker.k, s.worker.b), next)
    requires site == UpdateCronJob ==> RenderedCronKey(s.worker.k) in s.c.cronJobs
    ensures var n, n' := Count(s), Count(s');
            && n'.waiting == n.waiting && n'.dead <= n.dead && n'.failing == 0
            && n'.ownable + n'.missing == n.ownable + n.missing && n'.missing <= n.missing
            && 2 * n'.stale + n'.missing + n'.requests <= 2 * n.stale + n.missing + n.requests
            && (s'.worker.Idle? ==>
                  2 * n'.stale + n'.missing + n'.requests < 2 * n.stale + n.missing + n.requests)
  {
    hide Waiting, Stale, Cronless, DeadAccounts, DeadCronJobs, Woken, BindingName, RenderedCronKey, NextCronGeneration,
      RenderCronJob;
    var c, c', k := s.c, s'.c, s.worker.k;
    CronWriteWakes(c, k);
    CensusOfCronWrite(c, k);
    QueueGrows(s.queue, Woken(c, c'), Again(next, k), k);
    CronlessMeans(c, k);
  }

  lemma FinalizerProgress(s: System, s': System)
    requires s.worker.At? && Calls(s, s', AddFinalizer, PutFinalizer(s.c, s.worker.k, s.worker.b), Return(Done))
    ensures Progress(s, s')
  {
    hide Weight, Waiting, Stale, Cronless, DeadAccounts, DeadCronJobs, Woken, BindingName, RenderedCronKey;
    var c, c', k, f := s.c, s'.c, s.worker.k, s.worker.b.finalizers + {FINALIZER};
    FinalizerWriteWakesNobody(c, c', k, f);
    CensusOfFinalizer(c, c', k, f);
    QueueGrows(s.queue, Woken(c, c'), {}, k);
    MinorKept(Count(s), Count(s'));
  }

  lemma ReleaseProgress(s: System, s': System)
    requires s.worker.At? && Calls(s, s', RemoveFinalizer, DropFinalizer(s.c, s.worker.k, s.worker.b), Return(Done))
    ensures Progress(s, s')
  {
    hide Weight, Count, Calls;
    ReleaseCounts(s, s');
    ReleaseDrop(Count(s), Count(s'));
  }

  lemma ReleaseCounts(s: System, s': System)
    requires s.worker.At? && Calls(s, s', RemoveFinalizer, DropFinalizer(s.c, s.worker.k, s.worker.b), Return(Done))
    ensures var n, n' := Count(s), Count(s');
            && n'.waiting == n.waiting - 1 && n'.ownable == n.ownable && n'.dead <= n.ownable
            && n'.missing <= n.missing + 1 && n'.stale <= n.stale && n'.requests <= n.requests && n'.failing == 0
  {
    hide Waiting, Stale, Cronless, DeadAccounts, DeadCronJobs, Woken, BindingName, RenderedCronKey;
    var c, c', k := s.c, s'.c, s.worker.k;
    ReleaseWakes(c, k);
    CensusOfRelease(c, k);
    QueueGrows(s.queue, Woken(c, c'), {}, k);
  }

  /** Every call of every pass. */
  lemma CallProgress(s: System)
    requires Calm(s.c) && Coherent(s) && s.worker.At?
    ensures Progress(s, After(s, Proceed))
  {
    hide Progress, Woken, BindingName, CronName;
    var s', c, site, k, b := After(s, Proceed), s.c, s.worker.site, s.worker.k, s.worker.b;
    var o := Call(c, site, k, b, Answered);
    match site
    case GetServiceAccount => ReadProgress(s, s', site, o.next.site);
    case CreateServiceAccount => AccountProgress(s, s', site, o.next);
    case UpdateServiceAccount =>
      if k.ns in c.accounts { AccountProgress(s, s', site, o.next); }
      else { ReadProgress(s, s', site, GetClusterRole); }
    case GetClusterRole => ReadProgress(s, s', site, o.next.site);
    case CreateClusterRole => SharedProgress(s, s', site, o.c, o.next);
    case UpdateClusterRole => SharedProgress(s, s', site, o.c, o.next);
    case GetBinding => ReadProgress(s, s', site, o.next.site);
    case CreateBinding => SharedProgress(s, s', site, o.c, o.next);
    case UpdateBinding => SharedProgress(s, s', site, o.c, o.next);
    case GetCronJob => ReadProgress(s, s', site, o.next.site);
    case CreateCronJob => CronProgress(s, s', site, o.next);
    case UpdateCronJob =>
      if RenderedCronKey(k) in c.cronJobs { CronProgress(s, s', site, o.next); } else { FailedUpdateProgress(s, s'); }
    case AddFinalizer => FinalizerProgress(s, s');
    case DeleteBinding => SharedProgress(s, s', site, o.c, o.next);
    case RemoveFinalizer => ReleaseProgress(s, s');
  }

  // ---- and every other step -------------------------------------------------------------

  lemma TakeDropsRank(s: System, k: Key)
    requires Calm(s.c) && Possible(s, Take(k))
    ensures Rank(After(s, Take(k))) < Rank(s)
  {
    hide Waiting, Stale, Cronless, DeadAccounts, DeadCronJobs, BindingName, RenderedCronKey;
    var s' := After(s, Take(k));
    MinorKept(Count(s), Count(s'));
  }

  lemma CollectAccountDropsRank(s: System, ns: string)
    requires Calm(s.c) && Possible(s, CollectAccount(ns))
    ensures Rank(After(s, CollectAccount(ns))) < Rank(s)
  {
    hide Waiting, Stale, Cronless, DeadCronJobs, Woken, BindingName, RenderedCronKey;
    var s' := After(s, CollectAccount(ns));
    assert ns in DeadAccounts(s.c);
    CollectedAccountWakes(s.c, ns);
    UnionSize(s.queue, Woken(s.c, s'.c));
    CensusOfCollectedAccount(s.c, ns);
    MinorKept(Count(s), Count(s'));
  }

  lemma CollectCronJobDropsRank(s: System, at: Key)
    requires Calm(s.c) && Possible(s, CollectCronJob(at))
    ensures Rank(After(s, CollectCronJob(at))) < Rank(s)
  {
    hide Waiting, Stale, Cronless, DeadAccounts, Woken, BindingName, RenderedCronKey;
    var s' := After(s, CollectCronJob(at));
    assert at in DeadCronJobs(s.c);
    CollectedCronJobWakes(s.c, at);
    UnionSize(s.queue, Woken(s.c, s'.c));
    CensusOfCollectedCronJob(s.c, at);
    MinorKept(Count(s), Count(s'));
  }

  // ---- the theorem -----------------------------------------------------------------

  /** The premise is kept: no step creates Backups, and the worker's next call finds
      what it relies on. */
  lemma PremiseIsKept(s: System, a: Action)
    requires Calm(s.c) && Coherent(s) && Possible(s, a)
    ensures Calm(After(s, a).c) && Coherent(After(s, a))
  {
    hide After, Coherent;
    if a == Proceed { CallKeepsPremise(s); } else { OtherStepKeepsPremise(s, a); }
  }

  lemma CallKeepsPremise(s: System)
    requires Calm(s.c) && Coherent(s) && Possible(s, Proceed)
    ensures Calm(After(s, Proceed).c) && Coherent(After(s, Proceed))
  {
    hide Woken, BindingName, CronName, RenderCronJob, NextCronGeneration;
  }

  lemma OtherStepKeepsPremise(s: System, a: Action)
    requires Calm(s.c) && Coherent(s) && Possible(s, a) && a != Proceed
    ensures Calm(After(s, a).c) && Coherent(After(s, a))
  {
    hide Woken, BindingName, CronName;
  }

  /** Every step lowers the rank: every taking of a request, every call of every
      pass, and every removal by the garbage collector, whenever it comes. */
  lemma StepDropsRank(s: System, a: Action)
    requires Calm(s.c) && Coherent(s) && Possible(s, a)
    ensures Rank(After(s, a)) < Rank(s)
  {
    hide Count, Weight, Woken, Calm;
    match a
    case Take(k) => TakeDropsRank(s, k);
    case CollectAccount(ns) => CollectAccountDropsRank(s, ns);
    case CollectCronJob(at) => CollectCronJobDropsRank(s, at);
    case Proceed =>
      CallProgress(s);
      ForwardOnly(s.c, s.worker.site, s.worker.k, s.worker.b);
  }

  lemma ForwardOnly(c: Cluster, site: CallSite, k: Key, b: Backup)
    requires site != GetBackup
    ensures var next := Call(c, site, k, b, Answered).next;
            next.Jump? ==> Remaining(next.site) < Remaining(site)
  {
    hide BindingName, CronName;
  }

  /** Quiescence: no execution is longer than the rank of its first state. */
  lemma {:induction false} ExecutionsAreBounded(run: seq<System>, actions: seq<Action>)
    requires Execution(run, actions) && Calm(run[0].c) && Coherent(run[0])
    ensures |actions| + Rank(run[|actions|]) <= Rank(run[0])
    ensures Calm(run[|actions|].c) && Coherent(run[|actions|])
  {
    hide Rank, Calm, Coherent;
    if |actions| > 0 {
      var n := |actions| - 1;
      ExecutionsAreBounded(run[..n + 1], actions[..n]);
      assert run[n + 1] == After(run[n], actions[n]);
      PremiseIsKept(run[n], actions[n]);
      StepDropsRank(run[n], actions[n]);
    }
  }

  predicate Collects(a: Action) {
    a.CollectAccount? || a.CollectCronJob?
  }

  /** So every execution can be carried on to a quiescent state, whose queue is
      empty and in which no object has a dead owner.  Without the collector (gc)
      it can be carried on to an empty queue and an idle worker. */
  lemma {:induction false} ReachesRest(s: System, gc: bool) returns (run: seq<System>, actions: seq<Action>)
    requires Calm(s.c) && Coherent(s)
    ensures Execution(run, actions) && run[0] == s
    ensures gc ==> Quiescent(run[|actions|])
    ensures !gc ==> forall i :: 0 <= i < |actions| ==> !Collects(actions[i])
    ensures run[|actions|].worker.Idle? && run[|actions|].queue == {}
    decreases Rank(s)
  {
    hide Rank, Calm, Coherent, After;
    if a :| Possible(s, a) && (gc || !Collects(a)) {
      PremiseIsKept(s, a);
      StepDropsRank(s, a);
      var rest, more := ReachesRest(After(s, a), gc);
      run, actions := Prepend(s, a, rest, more);
    } else {
      RestIsIdle(s, gc);
      run, actions := [s], [];
    }
  }

  lemma RestIsIdle(s: System, gc: bool)
    requires Coherent(s) && forall a | Possible(s, a) :: !gc && Collects(a)
    ensures s.worker.Idle? && s.queue == {}
  {
    assert !Possible(s, Proceed);
    forall k ensures k !in s.queue { assert !Possible(s, Take(k)); }
  }

  lemma Prepend(s: System, a: Action, rest: seq<System>, more: seq<Action>)
    returns (run: seq<System>, actions: seq<Action>)
    requires Possible(s, a) && Execution(rest, more) && rest[0] == After(s, a)
    ensures Execution(run, actions) && run == [s] + rest && actions == [a] + more
  {
    hide After;
    run, actions := [s] + rest, [a] + more;
    forall i | 0 <= i < |actions|
      ensures Possible(run[i], actions[i]) && run[i + 1] == After(run[i], actions[i])
    {
      if i > 0 {
        assert run[i] == rest[i - 1] && actions[i] == more[i - 1] && run[i + 1] == rest[i];
      }
    }
  }

  lemma Chain(run1: seq<System>, actions1: seq<Action>, run2: seq<System>, actions2: seq<Action>)
    returns (run: seq<System>, actions: seq<Action>)
    requires Execution(run1, actions1) && Execution(run2, actions2) && run1[|actions1|] == run2[0]
    ensures Execution(run, actions) && actions == actions1 + actions2
    ensures run[0] == run1[0] && run[|actions|] == run2[|actions2|]
  {
    hide After;
    run, actions := run1 + run2[1..], actions1 + actions2;
    forall i | 0 <= i < |actions|
      ensures Possible(run[i], actions[i]) && run[i + 1] == After(run[i], actions[i])
    {
      if i >= |actions1| {
        assert run[i] == run2[i - |actions1|] && run[i + 1] == run2[i + 1 - |actions1|];
      }
    }
  }

  lemma QuiescentMeansIdle(s: System)
    requires Coherent(s)
    ensures Quiescent(s) <==> s.worker.Idle? && s.queue == {} && DeadAccounts(s.c) == {} && DeadCronJobs(s.c) == {}
  {
    if Quiescent(s) {
      RestIsIdle(s, true);
      forall ns ensures ns !in DeadAccounts(s.c) { assert !Possible(s, CollectAccount(ns)); }
      forall at ensures at !in DeadCronJobs(s.c) { assert !Possible(s, CollectCronJob(at)); }
    } else {
      var a :| Possible(s, a);
      match a
      case Take(k) =>
      case Proceed =>
      case CollectAccount(ns) => assert ns in DeadAccounts(s.c);
      case CollectCronJob(at) => assert at in DeadCronJobs(s.c);
    }
  }
}

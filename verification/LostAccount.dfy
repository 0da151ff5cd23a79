/** The shared ServiceAccount can be lost for good, and exactly when. */
module LostAccount {
  import opened Cluster
  import opened Reconcile
  import opened WorkQueue
  import opened Quiescence
  import opened Confluence
  import I = Interleaving

  /** An exposed cluster with its only Backup queued and an idle worker. */
  ghost predicate Ready(s: System, k: Key) {
    && AllLive(s.c) && s.worker.Idle? && k in s.queue
    && s.c.backups.Keys == {k} && ForeignDoom(s.c, k, true) && Unremarkable(s.c, k)
  }

  /** Nothing else is left for the collector. */
  predicate Cleared(c: Cluster, k: Key) {
    DeadAccounts(c) <= {DEFAULT_NAMESPACE} && DeadCronJobs(c) <= {RenderedCronKey(k)}
  }

  lemma {:induction false} ClearOthers(s: System, k: Key) returns (run: seq<System>, actions: seq<Action>)
    requires Ready(s, k)
    ensures Execution(run, actions) && run[0] == s && Ready(run[|actions|], k) && Cleared(run[|actions|].c, k)
    decreases Rank(s)
  {
    if ns :| ns in DeadAccounts(s.c) && ns != DEFAULT_NAMESPACE {
      run, actions := ClearOne(s, k, CollectAccount(ns));
    } else if at :| at in DeadCronJobs(s.c) && at != RenderedCronKey(k) {
      run, actions := ClearOne(s, k, CollectCronJob(at));
    } else {
      run, actions := [s], [];
    }
  }

  lemma {:induction false} ClearOne(s: System, k: Key, a: Action) returns (run: seq<System>, actions: seq<Action>)
    requires Ready(s, k) && Possible(s, a) && Collects(a)
    requires a != CollectAccount(DEFAULT_NAMESPACE) && a != CollectCronJob(RenderedCronKey(k))
    ensures Execution(run, actions) && run[0] == s && Ready(run[|actions|], k) && Cleared(run[|actions|].c, k)
    decreases Rank(s), 0
  {
    hide Rank;
    StepDropsRank(s, a);
    StaysReady(s, k, a);
    var rest, more := ClearOthers(After(s, a), k);
    run, actions := Prepend(s, a, rest, more);
  }

  lemma StaysReady(s: System, k: Key, a: Action)
    requires Ready(s, k) && Possible(s, a) && Collects(a)
    requires a != CollectAccount(DEFAULT_NAMESPACE) && a != CollectCronJob(RenderedCronKey(k))
    ensures Ready(After(s, a), k)
  {
    hide Woken, BindingName, CronName;
  }

  /** The pass on k with the account gone: it finds all the rest, and nobody wakes
      k. */
  ghost predicate Sliding(s: System, k: Key) {
    && s.worker.At? && s.worker.k == k && s.c.backups.Keys == {k} && Unchanged(s.c, k, s.worker.b)
    && k.ns == DEFAULT_NAMESPACE && !s.worker.b.deleting && k !in s.queue && Unremarkable(s.c, k)
    && s.worker.site in {UpdateServiceAccount, GetClusterRole, UpdateClusterRole, GetBinding, UpdateBinding,
                         GetCronJob, UpdateCronJob, AddFinalizer}
    && DEFAULT_NAMESPACE !in s.c.accounts && DeadAccounts(s.c) == {}
    && DeadCronJobs(s.c) <= if s.worker.site == AddFinalizer then {} else {RenderedCronKey(k)}
  }

  /** And its end: only requests without a Backup are left. */
  ghost predicate Lost(s: System, k: Key) {
    && s.worker.Idle? && k !in s.queue && s.c.backups.Keys == {k}
    && DEFAULT_NAMESPACE !in s.c.accounts && DeadAccounts(s.c) == {} && DeadCronJobs(s.c) == {}
  }

  lemma SlideStep(s: System, k: Key)
    requires Sliding(s, k)
    ensures var s' := After(s, Proceed);
            if s'.worker.Idle? then Lost(s', k)
            else Sliding(s', k) && Remaining(s'.worker.site) < Remaining(s.worker.site)
  {
    hide Woken, BindingName, CronName, DeadAccounts, DeadCronJobs;
    var c, c', site := s.c, After(s, Proceed).c, s.worker.site;
    if site == UpdateCronJob {
      CronSlide(c, k);
    } else if site == AddFinalizer {
      var f := s.worker.b.finalizers + {FINALIZER};
      FinalizerWriteWakesNobody(c, c', k, f);
      CensusOfFinalizer(c, c', k, f);
    } else {
      UnwatchedWakesNobody(c, c');
      SameSets(c, c');
    }
  }

  lemma CronSlide(c: Cluster, k: Key)
    requires c.backups.Keys == {k} && k.ns == DEFAULT_NAMESPACE && Unremarkable(c, k)
    requires DeadCronJobs(c) <= {RenderedCronKey(k)} && DeadAccounts(c) == {}
    ensures var c' := PutCronJob(c, k, c.backups[k]);
            && Woken(c, c') == {} && DeadAccounts(c') == {} && DeadCronJobs(c') == {} && Unremarkable(c', k)
  {
    hide BindingName, CronName;
    CronWriteWakes(c, k);
    DeadAfterCronWrite(c, PutCronJob(c, k, c.backups[k]), k, NextCronGeneration(c, k, c.backups[k]));
  }

  lemma {:induction false} Slide(s: System, k: Key) returns (run: seq<System>, actions: seq<Action>)
    requires Sliding(s, k)
    ensures Execution(run, actions) && run[0] == s && Lost(run[|actions|], k)
    decreases Remaining(s.worker.site)
  {
    hide Sliding, Lost, After;
    assert s.worker.At? && Possible(s, Proceed) by { SlidingIsBusy(s, k); }
    SlideStep(s, k);
    var s' := After(s, Proceed);
    if s'.worker.At? {
      var rest, more := Slide(s', k);
      run, actions := Prepend(s, Proceed, rest, more);
    } else {
      run, actions := [s, s'], [Proceed];
    }
  }

  lemma SlidingIsBusy(s: System, k: Key)
    requires Sliding(s, k)
    ensures s.worker.At? && s.worker.site != GetBackup
  {
  }

  lemma {:induction false} Drain(s: System, k: Key) returns (run: seq<System>, actions: seq<Action>)
    requires Lost(s, k)
    ensures Execution(run, actions) && run[0] == s && Quiescent(run[|actions|]) && Lost(run[|actions|], k)
    decreases |s.queue|
  {
    if gone :| gone in s.queue {
      var s' := After(s, Take(gone));
      var rest, more := Drain(s', k);
      run, actions := Prepend(s, Take(gone), rest, more);
    } else {
      QuiescentMeansIdle(s);
      run, actions := [s], [];
    }
  }

  /** The collector comes between the read and the update of the account. */
  lemma Snatch(s: System, k: Key) returns (run: seq<System>, actions: seq<Action>)
    requires Ready(s, k) && Cleared(s.c, k)
    ensures Execution(run, actions) && run[0] == s && Sliding(run[|actions|], k)
    ensures actions == [Take(k), Proceed, CollectAccount(DEFAULT_NAMESPACE)]
  {
    hide Woken, BindingName, CronName;
    var s1 := After(s, Take(k));
    var s2 := After(s1, Proceed);
    UnwatchedWakesNobody(s.c, s.c);
    assert s2 == System(s.c, s.queue - {k}, I.At(UpdateServiceAccount, k, s.c.backups[k]));
    var a := CollectAccount(DEFAULT_NAMESPACE);
    var s3 := After(s2, a);
    AccountSnatched(s.c, s3.c, k);
    run, actions := [s, s1, s2, s3], [Take(k), Proceed, a];
  }

  lemma AccountSnatched(c: Cluster, c': Cluster, k: Key)
    requires c' == c.(accounts := c.accounts - {DEFAULT_NAMESPACE}) && ForeignDoom(c, k, true) && Cleared(c, k)
    ensures k !in Woken(c, c') && DeadAccounts(c') == {} && DeadCronJobs(c') == DeadCronJobs(c)
  {
    CollectedAccountWakes(c, DEFAULT_NAMESPACE);
    assert forall n, o :: DeadOwner(c', n, o) == DeadOwner(c, n, o);
  }

  /** From an exposed start some complete execution, without a failing API call,
      ends with the account gone and its Backup idle. */
  lemma AccountCanBeLost(s: System) returns (run: seq<System>, actions: seq<Action>)
    requires Start(s) && Exposed(s.c)
    ensures Execution(run, actions) && run[0] == s && Quiescent(run[|actions|])
    ensures DEFAULT_NAMESPACE !in run[|actions|].c.accounts && run[|actions|].c.backups.Keys == s.c.backups.Keys
  {
    hide After, Quiescent, Sliding, Cleared;
    var k :| s.c.backups.Keys == {k} && ForeignDoom(s.c, k, true) && Unremarkable(s.c, k);
    run, actions := ClearOthers(s, k);
    var r, a := Snatch(run[|actions|], k);
    run, actions := Chain(run, actions, r, a);
    r, a := Slide(run[|actions|], k);
    run, actions := Chain(run, actions, r, a);
    r, a := Drain(run[|actions|], k);
    run, actions := Chain(run, actions, r, a);
  }

  /** The run starts at s and comes to rest without the shared account. */
  ghost predicate Loses(run: seq<System>, actions: seq<Action>, s: System)
    requires Execution(run, actions)
  {
    run[0] == s && Quiescent(run[|actions|]) && DEFAULT_NAMESPACE !in run[|actions|].c.accounts
  }

  ghost predicate CanLose(s: System) {
    exists run: seq<System>, actions: seq<Action> | Execution(run, actions) :: Loses(run, actions, s)
  }

  /** The exact condition: with a Backup around, some complete execution ends
      without the account if and only if the start is exposed. */
  lemma LossIffExposed(s: System)
    requires Start(s) && s.c.backups != map[]
    ensures CanLose(s) <==> Exposed(s.c)
  {
    if Exposed(s.c) {
      var run, actions := AccountCanBeLost(s);
      assert Loses(run, actions, s);
    }
    if CanLose(s) {
      var run: seq<System>, actions: seq<Action> :| Execution(run, actions) && Loses(run, actions, s);
      LostMeansExposed(run, actions);
    }
  }

  lemma LostMeansExposed(run: seq<System>, actions: seq<Action>)
    requires Execution(run, actions) && Start(run[0]) && run[0].c.backups != map[]
    requires Quiescent(run[|actions|]) && DEFAULT_NAMESPACE !in run[|actions|].c.accounts
    ensures Exposed(run[0].c)
  {
    hide OnTrack, Nearly, AccountInv, Start, After, Coherent, PassOnTrack, Exposed, Quiescent;
    InvHolds(run, actions, |actions|, true);
    QuiescentMeansIdle(run[|actions|]);
    EndIsSettled(run[0].c, run[|actions|], true);
  }
}

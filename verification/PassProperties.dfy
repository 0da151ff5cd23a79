/** What one pass, and a bounded number of passes, guarantee. */
module PassProperties {
  import opened Cluster
  import opened Reconcile

  // ---- passes under arbitrary API failures -----------------------------------

  /** The replies a live Backup's pass needs to end without error or requeue.
      The three RBAC updates are not among them: their errors are discarded. */
  predicate Cooperative(api: Api, b: Backup) {
    && api(GetBackup).Answered? && api(GetServiceAccount).Answered? && api(GetClusterRole).Answered?
    && api(GetBinding).Answered? && api(GetCronJob).Answered? && api(UpdateCronJob).Answered?
    && (FINALIZER !in b.finalizers ==> api(AddFinalizer).Answered?)
  }

  /** The RBAC dependents as an update that may have been lost leaves them. */
  predicate RbacKeptOrRendered(c: Cluster, c': Cluster, k: Key, b: Backup)
    requires k.ns in c.accounts
  {
    && c'.accounts in {c.accounts, PutServiceAccount(c, k, b).accounts}
    && c'.role in {c.role, Some(RenderClusterRole())}
    && c'.bindings in {c.bindings, PutClusterRoleBinding(c, k.ns).bindings}
  }

  /** A pass on a live Backup ends quietly exactly when it saw all four
      dependents and its essential calls were answered; it has then stored the
      CronJob as rendered and the finalizer, whatever became of the RBAC updates. */
  lemma QuietPass(c: Cluster, k: Key, api: Api)
    requires k in c.backups && !c.backups[k].deleting
    ensures Pass(c, k, api).result.Done? <==>
            && Cooperative(api, c.backups[k])
            && StageOf(c, k) == Full
            && RenderedCronKey(k) in c.cronJobs
    ensures Pass(c, k, api).result.Done? ==>
              var b, c' := c.backups[k], Pass(c, k, api).c;
              && RbacKeptOrRendered(c, c', k, b)
              && c'.cronJobs == PutCronJob(c, k, b).cronJobs
              && CronRendered(c', k, b)
              && c'.backups == c.backups[k := b.(finalizers := b.finalizers + {FINALIZER})]
  {
    if api(GetBackup).Answered? {
      QuietFromAccount(c, k, c.backups[k], api);
    }
  }

  /** The common shape of the four step lemmas: quiet is when the rest of the
      pass starting at p ends without error or requeue. */
  ghost predicate Quiet(c: Cluster, k: Key, b: Backup, p: PassResult, quiet: bool) {
    && (p.result.Done? <==> quiet)
    && (p.result.Done? ==>
          && p.c.cronJobs == PutCronJob(c, k, b).cronJobs
          && p.c.backups == c.backups[k := b.(finalizers := b.finalizers + {FINALIZER})])
  }

  predicate QuietCron(c: Cluster, k: Key, b: Backup, api: Api) {
    && api(GetCronJob).Answered? && api(UpdateCronJob).Answered?
    && (FINALIZER !in b.finalizers ==> api(AddFinalizer).Answered?)
    && LookupCronKey(k) in c.cronJobs && RenderedCronKey(k) in c.cronJobs
  }

  predicate QuietBinding(c: Cluster, k: Key, b: Backup, api: Api) {
    QuietCron(c, k, b, api) && api(GetBinding).Answered? && BindingName(k.ns) in c.bindings
  }

  predicate QuietRole(c: Cluster, k: Key, b: Backup, api: Api) {
    QuietBinding(c, k, b, api) && api(GetClusterRole).Answered? && c.role.Some?
  }

  lemma QuietFromAccount(c: Cluster, k: Key, b: Backup, api: Api)
    requires Unchanged(c, k, b) && !b.deleting
    ensures var p := Drive(c, GetServiceAccount, k, b, api);
            && Quiet(c, k, b, p, QuietRole(c, k, b, api) && api(GetServiceAccount).Answered? && k.ns in c.accounts)
            && (p.result.Done? ==> RbacKeptOrRendered(c, p.c, k, b))
  {
    hide Drive, Call, BindingName, CronName;
    var c1 := Call(c, UpdateServiceAccount, k, b, api(UpdateServiceAccount)).c;
    AccountStep(c, c1, k, b, api);
    QuietFromRole(c1, k, b, api);
  }

  lemma AccountStep(c: Cluster, c1: Cluster, k: Key, b: Backup, api: Api)
    requires c1 == Call(c, UpdateServiceAccount, k, b, api(UpdateServiceAccount)).c
    ensures c1 in {c, PutServiceAccount(c, k, b)}
    ensures var p := Drive(c, GetServiceAccount, k, b, api);
            if k.ns in c.accounts && api(GetServiceAccount).Answered? then p == Drive(c1, GetClusterRole, k, b, api)
            else !p.result.Done?
  {
  }

  lemma QuietFromRole(c: Cluster, k: Key, b: Backup, api: Api)
    requires Unchanged(c, k, b) && !b.deleting
    ensures var p := Drive(c, GetClusterRole, k, b, api);
            && Quiet(c, k, b, p, QuietRole(c, k, b, api))
            && (p.result.Done? ==>
                  && p.c.accounts == c.accounts
                  && p.c.role in {c.role, Some(RenderClusterRole())}
                  && p.c.bindings in {c.bindings, PutClusterRoleBinding(c, k.ns).bindings})
  {
    hide Drive, Call, BindingName, CronName;
    var c1 := Call(c, UpdateClusterRole, k, b, api(UpdateClusterRole)).c;
    RoleStep(c, c1, k, b, api);
    QuietFromBinding(c1, k, b, api);
  }

  lemma RoleStep(c: Cluster, c1: Cluster, k: Key, b: Backup, api: Api)
    requires c1 == Call(c, UpdateClusterRole, k, b, api(UpdateClusterRole)).c
    ensures c1 in {c, PutClusterRole(c)}
    ensures var p := Drive(c, GetClusterRole, k, b, api);
            if c.role.Some? && api(GetClusterRole).Answered? then p == Drive(c1, GetBinding, k, b, api)
            else !p.result.Done?
  {
  }

  lemma QuietFromBinding(c: Cluster, k: Key, b: Backup, api: Api)
    requires Unchanged(c, k, b) && !b.deleting
    ensures var p := Drive(c, GetBinding, k, b, api);
            && Quiet(c, k, b, p, QuietBinding(c, k, b, api))
            && (p.result.Done? ==>
                  && p.c.accounts == c.accounts && p.c.role == c.role
                  && p.c.bindings in {c.bindings, PutClusterRoleBinding(c, k.ns).bindings})
  {
    hide Drive, Call, BindingName, CronName;
    var c1 := Call(c, UpdateBinding, k, b, api(UpdateBinding)).c;
    BindingStep(c, c1, k, b, api);
    QuietTail(c1, k, b, api);
  }

  lemma BindingStep(c: Cluster, c1: Cluster, k: Key, b: Backup, api: Api)
    requires c1 == Call(c, UpdateBinding, k, b, api(UpdateBinding)).c
    ensures c1 in {c, PutClusterRoleBinding(c, k.ns)}
    ensures var p := Drive(c, GetBinding, k, b, api);
            if BindingName(k.ns) in c.bindings && api(GetBinding).Answered? then p == Drive(c1, GetCronJob, k, b, api)
            else !p.result.Done?
  {
    hide BindingName;
  }

  lemma QuietTail(c: Cluster, k: Key, b: Backup, api: Api)
    requires Unchanged(c, k, b) && !b.deleting
    ensures var p := Drive(c, GetCronJob, k, b, api);
            && Quiet(c, k, b, p, QuietCron(c, k, b, api))
            && (p.result.Done? ==> p.c.accounts == c.accounts && p.c.role == c.role && p.c.bindings == c.bindings)
  {
    hide BindingName, CronName;
    if LookupCronKey(k) in c.cronJobs && api(GetCronJob).Answered? {
      assert Drive(c, GetCronJob, k, b, api) == Drive(c, UpdateCronJob, k, b, api);
      var c4 := PutCronJob(c, k, b);
      if RenderedCronKey(k) in c.cronJobs && api(UpdateCronJob).Answered? {
        assert Drive(c, GetCronJob, k, b, api) == Finish(c4, k, b, api);
        if FINALIZER in b.finalizers {
          assert b.finalizers + {FINALIZER} == b.finalizers;
          assert c.backups[k := b] == c.backups;
        }
      }
    }
  }

  // ---- the result of a pass, under arbitrary replies -----------------------------

  /** The pass gets as far as reading the role, the binding, the CronJob. */
  predicate ReachesAccount(c: Cluster, k: Key, api: Api) {
    api(GetBackup).Answered? && k in c.backups
  }

  predicate ReachesRole(c: Cluster, k: Key, api: Api) {
    ReachesAccount(c, k, api) && api(GetServiceAccount).Answered? && k.ns in c.accounts
  }

  predicate ReachesBinding(c: Cluster, k: Key, api: Api) {
    ReachesRole(c, k, api) && api(GetClusterRole).Answered? && c.role.Some?
  }

  predicate ReachesCron(c: Cluster, k: Key, api: Api) {
    ReachesBinding(c, k, api) && api(GetBinding).Answered? && "horusctl-" + k.ns + "-binding" in c.bindings
  }

  predicate ReachesCronUpdate(c: Cluster, k: Key, api: Api) {
    ReachesCron(c, k, api) && api(GetCronJob).Answered? && Key(k.ns, "backup-" + k.name) in c.cronJobs
  }

  /** A Backup that is not there ends the pass quietly with the cluster as it was. */
  lemma AbsentBackup(c: Cluster, k: Key, api: Api)
    requires k !in c.backups
    ensures Pass(c, k, api) == PassResult(c, if api(GetBackup).Failed? then Error else Done)
  {
  }

  /** A read that is reached and fails ends the pass with an error. */
  lemma FailedReadIsError(c: Cluster, k: Key, api: Api)
    ensures || api(GetBackup).Failed?
            || (ReachesAccount(c, k, api) && api(GetServiceAccount).Failed?)
            || (ReachesRole(c, k, api) && api(GetClusterRole).Failed?)
            || (ReachesBinding(c, k, api) && api(GetBinding).Failed?)
            || (ReachesCron(c, k, api) && api(GetCronJob).Failed?) ==>
              Pass(c, k, api).result.Error?
  {
    ResultWrittenOut(c, k, api);
  }

  /** Each of the three results, exactly.  A pass asks for a requeue if it has
      created the first missing dependent.  It is done if the Backup is absent, or if
      all four dependents were found and the essential calls answered: the update of
      the CronJob, and those for the finalizer, if there is anything to do about it.
      Everything else is an error. */
  lemma ResultWrittenOut(c: Cluster, k: Key, api: Api)
    ensures Pass(c, k, api).result == Requeue <==>
            || (ReachesAccount(c, k, api) && api(GetServiceAccount).Answered?
                && k.ns !in c.accounts && api(CreateServiceAccount).Answered?)
            || (ReachesRole(c, k, api) && api(GetClusterRole).Answered?
                && c.role.None? && api(CreateClusterRole).Answered?)
            || (ReachesBinding(c, k, api) && api(GetBinding).Answered?
                && "horusctl-" + k.ns + "-binding" !in c.bindings && api(CreateBinding).Answered?)
            || (ReachesCron(c, k, api) && api(GetCronJob).Answered? && Key(k.ns, "backup-" + k.name) !in c.cronJobs
                && Key("default", "backup-" + k.name) !in c.cronJobs && api(CreateCronJob).Answered?)
    ensures Pass(c, k, api).result == Done <==>
            || (api(GetBackup).Answered? && k !in c.backups)
            || (ReachesCronUpdate(c, k, api) && api(UpdateCronJob).Answered?
                && Key("default", "backup-" + k.name) in c.cronJobs && FinalizerAnswered(c.backups[k], api))
  {
    hide Drive, Call, FinalizerAnswered;
    if ReachesAccount(c, k, api) {
      ResultFromAccount(c, k, c.backups[k], api);
    }
  }

  predicate FinalizerAnswered(b: Backup, api: Api) {
    if b.deleting then
      "backup.storage.hybfkuf.io/finalizer" in b.finalizers ==>
        api(DeleteBinding).Answered? && api(RemoveFinalizer).Answered?
    else
      "backup.storage.hybfkuf.io/finalizer" !in b.finalizers ==> api(AddFinalizer).Answered?
  }

  /** The same for what is left of the pass from each dependent on. */
  predicate CronRequeues(c: Cluster, k: Key, api: Api) {
    api(GetCronJob).Answered? && LookupCronKey(k) !in c.cronJobs
    && RenderedCronKey(k) !in c.cronJobs && api(CreateCronJob).Answered?
  }

  predicate BindingRequeues(c: Cluster, k: Key, api: Api) {
    && api(GetBinding).Answered?
    && (if BindingName(k.ns) in c.bindings then CronRequeues(c, k, api) else api(CreateBinding).Answered?)
  }

  predicate RoleRequeues(c: Cluster, k: Key, api: Api) {
    && api(GetClusterRole).Answered?
    && (if c.role.Some? then BindingRequeues(c, k, api) else api(CreateClusterRole).Answered?)
  }

  predicate AccountRequeues(c: Cluster, k: Key, api: Api) {
    && api(GetServiceAccount).Answered?
    && (if k.ns in c.accounts then RoleRequeues(c, k, api) else api(CreateServiceAccount).Answered?)
  }

  predicate BindingDone(c: Cluster, k: Key, b: Backup, api: Api) {
    api(GetBinding).Answered? && BindingName(k.ns) in c.bindings && CronDone(c, k, b, api)
  }

  predicate RoleDone(c: Cluster, k: Key, b: Backup, api: Api) {
    api(GetClusterRole).Answered? && c.role.Some? && BindingDone(c, k, b, api)
  }

  predicate CronDone(c: Cluster, k: Key, b: Backup, api: Api) {
    api(GetCronJob).Answered? && LookupCronKey(k) in c.cronJobs && api(UpdateCronJob).Answered?
    && RenderedCronKey(k) in c.cronJobs && FinalizerAnswered(b, api)
  }

  lemma ResultFromAccount(c: Cluster, k: Key, b: Backup, api: Api)
    requires Unchanged(c, k, b)
    ensures var result := Drive(c, GetServiceAccount, k, b, api).result;
            && (result == Requeue <==> AccountRequeues(c, k, api))
            && (result == Done <==> api(GetServiceAccount).Answered? && k.ns in c.accounts && RoleDone(c, k, b, api))
  {
    hide Drive, Call, BindingName, CronName, FinalizerAnswered;
    var c1 := Call(c, UpdateServiceAccount, k, b, api(UpdateServiceAccount)).c;
    AccountStep(c, c1, k, b, api);
    ResultAtAccount(c, k, b, api);
    ResultFromRole(c1, k, b, api);
  }

  lemma ResultAtAccount(c: Cluster, k: Key, b: Backup, api: Api)
    ensures var result := Drive(c, GetServiceAccount, k, b, api).result;
            && (api(GetServiceAccount).Failed? ==> result == Error)
            && (api(GetServiceAccount).Answered? && k.ns !in c.accounts ==>
                  result == if api(CreateServiceAccount).Answered? then Requeue else Error)
  {
  }

  lemma ResultFromRole(c: Cluster, k: Key, b: Backup, api: Api)
    requires Unchanged(c, k, b)
    ensures var result := Drive(c, GetClusterRole, k, b, api).result;
            (result == Requeue <==> RoleRequeues(c, k, api)) && (result == Done <==> RoleDone(c, k, b, api))
  {
    hide Drive, Call, BindingName, CronName, FinalizerAnswered;
    var c1 := Call(c, UpdateClusterRole, k, b, api(UpdateClusterRole)).c;
    RoleStep(c, c1, k, b, api);
    ResultAtRole(c, k, b, api);
    ResultFromBinding(c1, k, b, api);
  }

  lemma ResultAtRole(c: Cluster, k: Key, b: Backup, api: Api)
    ensures var result := Drive(c, GetClusterRole, k, b, api).result;
            && (api(GetClusterRole).Failed? ==> result == Error)
            && (api(GetClusterRole).Answered? && c.role.None? ==>
                  result == if api(CreateClusterRole).Answered? then Requeue else Error)
  {
  }

  lemma ResultFromBinding(c: Cluster, k: Key, b: Backup, api: Api)
    requires Unchanged(c, k, b)
    ensures var result := Drive(c, GetBinding, k, b, api).result;
            (result == Requeue <==> BindingRequeues(c, k, api)) && (result == Done <==> BindingDone(c, k, b, api))
  {
    hide Drive, Call, BindingName, CronName, FinalizerAnswered;
    var c1 := Call(c, UpdateBinding, k, b, api(UpdateBinding)).c;
    BindingStep(c, c1, k, b, api);
    ResultAtBinding(c, k, b, api);
    if BindingName(k.ns) in c.bindings {
      ResultFromCron(c1, k, b, api);
    }
  }

  lemma ResultAtBinding(c: Cluster, k: Key, b: Backup, api: Api)
    ensures var result := Drive(c, GetBinding, k, b, api).result;
            && (api(GetBinding).Failed? ==> result == Error)
            && (api(GetBinding).Answered? && BindingName(k.ns) !in c.bindings ==>
                  result == if api(CreateBinding).Answered? then Requeue else Error)
  {
    hide BindingName;
  }

  lemma ResultFromCron(c: Cluster, k: Key, b: Backup, api: Api)
    requires Unchanged(c, k, b) && BindingName(k.ns) in c.bindings
    ensures var result := Drive(c, GetCronJob, k, b, api).result;
            (result == Requeue <==> CronRequeues(c, k, api)) && (result == Done <==> CronDone(c, k, b, api))
  {
    hide BindingName, CronName;
    if api(GetCronJob).Answered? && LookupCronKey(k) in c.cronJobs {
      assert Drive(c, GetCronJob, k, b, api) == Drive(c, UpdateCronJob, k, b, api);
      if RenderedCronKey(k) in c.cronJobs && api(UpdateCronJob).Answered? {
        assert Drive(c, GetCronJob, k, b, api) == Finish(PutCronJob(c, k, b), k, b, api);
        ResultFromFinish(PutCronJob(c, k, b), k, b, api);
      }
    }
  }

  lemma ResultFromFinish(c: Cluster, k: Key, b: Backup, api: Api)
    requires Unchanged(c, k, b) && BindingName(k.ns) in c.bindings
    ensures Finish(c, k, b, api).result == if FinalizerAnswered(b, api) then Done else Error
  {
    hide BindingName;
    if FinalizerEntry(b) == Jump(DeleteBinding) && api(DeleteBinding).Answered? {
      assert Drive(c, DeleteBinding, k, b, api) == Drive(DropBinding(c, k.ns), RemoveFinalizer, k, b, api);
    }
  }

  // ---- repeated passes ----------------------------------------------------------

  function Passes(c: Cluster, k: Key, n: nat): Cluster
    decreases n
  {
    if n == 0 then c else Passes(Pass(c, k, Reliable()).c, k, n - 1)
  }

  /** How many of the four dependents a pass on k would not find. */
  function Missing(c: Cluster, k: Key): nat {
    (if k.ns in c.accounts then 0 else 1)
    + (if c.role.Some? then 0 else 1)
    + (if BindingName(k.ns) in c.bindings then 0 else 1)
    + (if LookupCronKey(k) in c.cronJobs then 0 else 1)
  }

  /** One error-free pass in "default" that has something to create: it creates
      one dependent, asks to be requeued and leaves the Backups alone. */
  lemma CreatingPass(c: Cluster, k: Key)
    requires k in c.backups && k.ns == DEFAULT_NAMESPACE && Missing(c, k) > 0
    ensures var p := Pass(c, k, Reliable());
            && p.result == Requeue
            && Missing(p.c, k) == Missing(c, k) - 1
            && p.c.backups == c.backups
            && (BindingWritable(p.c, k.ns) <==> BindingWritable(c, k.ns))
  {
    CleanPassIsPass(c, k);
  }

  /** The dependents of k in a state that further passes leave alone. */
  predicate Converged(c: Cluster, k: Key) {
    k in c.backups && FINALIZER in c.backups[k].finalizers && DependentsRendered(c, k, c.backups[k])
  }

  /** Convergence with bound.  A live Backup in "default" needs exactly one pass
      for each missing dependent and one more; then nothing moves.  All four
      dependents are as rendered if and only if no binding with a foreign role
      reference was in the way, because that update is refused and its error
      discarded. */
  lemma {:induction false} Convergence(c: Cluster, k: Key)
    requires k in c.backups && k.ns == DEFAULT_NAMESPACE && !c.backups[k].deleting
    ensures var c' := Passes(c, k, Missing(c, k) + 1);
            && (Converged(c', k) <==> BindingWritable(c, k.ns))
            && k in c'.backups
            && c'.backups[k] == c.backups[k].(finalizers := c.backups[k].finalizers + {FINALIZER})
            && CronRendered(c', k, c.backups[k])
            && Pass(c', k, Reliable()) == PassResult(c', Done)
    decreases Missing(c, k)
  {
    hide Pass, CleanPass, Converged, CronRendered, BindingWritable;
    if Missing(c, k) > 0 {
      CreatingPass(c, k);
      Convergence(Pass(c, k, Reliable()).c, k);
    } else {
      var c' := Pass(c, k, Reliable()).c;
      assert Passes(c, k, 1) == Passes(c', k, 0) == c';
      CleanPassIsPass(c, k);
      CleanPassIsPass(c', k);
      FullPassIsFixpoint(c, k);
    }
  }

  lemma FullPassIsFixpoint(c: Cluster, k: Key)
    requires k in c.backups && k.ns == DEFAULT_NAMESPACE && !c.backups[k].deleting
    requires StageOf(c, k) == Full
    ensures var c' := CleanPass(c, k).c;
            && (Converged(c', k) <==> BindingWritable(c, k.ns))
            && k in c'.backups
            && c'.backups[k] == c.backups[k].(finalizers := c.backups[k].finalizers + {FINALIZER})
            && CronRendered(c', k, c.backups[k])
            && CleanPass(c', k) == PassResult(c', Done)
  {
    hide BindingName, CronName;
    var b, c' := c.backups[k], CleanPass(c, k).c;
    var b' := b.(finalizers := b.finalizers + {FINALIZER});
    if FINALIZER in b.finalizers {
      assert b' == b;
    }
    assert c'.backups[k] == b';
    var c'' := CleanPass(c', k).c;
    assert c''.accounts == c'.accounts;
    assert c''.role == c'.role;
    assert c''.bindings == c'.bindings;
    assert c''.cronJobs == c'.cronJobs;
    assert c''.backups == c'.backups;
  }

  /** Crash-safe release.  Whatever state a crash left behind, a deleting Backup
      in "default" loses our finalizer after one error-free pass for each missing
      dependent, the binding included, and one more; it is gone at that moment if
      and only if our finalizer was its last.  The binding is gone either way. */
  lemma {:induction false} Release(c: Cluster, k: Key)
    requires k in c.backups && k.ns == DEFAULT_NAMESPACE
    requires c.backups[k].deleting && FINALIZER in c.backups[k].finalizers
    ensures var c' := Passes(c, k, Missing(c, k) + 1);
            && (k !in c'.backups <==> c.backups[k].finalizers == {FINALIZER})
            && (k in c'.backups ==> FINALIZER !in c'.backups[k].finalizers)
            && c'.backups - {k} == c.backups - {k}
            && BindingName(k.ns) !in c'.bindings
    decreases Missing(c, k)
  {
    hide Pass, Reliable, BindingName, CronName;
    if Missing(c, k) > 0 {
      CreatingPass(c, k);
      Release(Pass(c, k, Reliable()).c, k);
    } else {
      CleanPassIsPass(c, k);
      var c' := Pass(c, k, Reliable()).c;
      assert Passes(c, k, 1) == Passes(c', k, 0) == c';
    }
  }

  /** Until that last pass the finalizer stays. */
  lemma {:induction false} NoEarlyRelease(c: Cluster, k: Key, n: nat)
    requires k in c.backups && k.ns == DEFAULT_NAMESPACE && n <= Missing(c, k)
    ensures Passes(c, k, n).backups == c.backups
    decreases n
  {
    hide Pass, Missing, BindingWritable;
    if n > 0 {
      CreatingPass(c, k);
      NoEarlyRelease(Pass(c, k, Reliable()).c, k, n - 1);
    }
  }

  /** What a quiet pass leaves in "default" under the Backup's name, field by field:
      the log flags, the time zone and the target of the Backup's own specification,
      the template's schedule and image, and the account named like the one that
      the pass has ensured. */
  lemma StoredCronJob(c: Cluster, k: Key, api: Api)
    requires k in c.backups && !c.backups[k].deleting && Pass(c, k, api).result.Done?
    ensures var c', at, b := Pass(c, k, api).c, Key("default", "backup-" + k.name), c.backups[k];
            && at in c'.cronJobs && k.ns in c'.accounts
            && var job := c'.cronJobs[at];
            && job.spec.logLevel == b.spec.logLevel && job.spec.logFormat == b.spec.logFormat
            && job.spec.timeZone == b.spec.timeZone && job.spec.target == b.spec.target && job.spec.ns == k.ns
            && job.spec.schedule == "*/1 * * * *" && job.spec.image == "hybfkuf/horusctl:latest"
            && job.spec.serviceAccount == "horusctl" && job.managed
            && job.owner == if k.ns == "default" then Some(OwnerRef(k.name, b.uid)) else None
  {
    QuietPass(c, k, api);
  }

  /** What convergence means for the other three, field by field: the account is the
      Backup's, the role has the template's rules, and the binding gives the role to
      the account of the Backup's namespace. */
  lemma ConvergedWrittenOut(c: Cluster, k: Key)
    requires Converged(c, k)
    ensures "backup.storage.hybfkuf.io/finalizer" in c.backups[k].finalizers
    ensures k.ns in c.accounts && c.accounts[k.ns].managed
            && c.accounts[k.ns].owner == Some(OwnerRef(k.name, c.backups[k].uid))
    ensures c.role.Some? && c.role.value.rules == CLUSTER_ROLE_RULES && c.role.value.managed
    ensures var name := "horusctl-" + k.ns + "-binding";
            && name in c.bindings && c.bindings[name].roleRef == "horusctl-role" && c.bindings[name].managed
            && c.bindings[name].subject == "horusctl" && c.bindings[name].subjectNs == k.ns
  {
  }

  /** The binding speaks for the account of the Backup's namespace, while the CronJob
      runs in "default": the job has the rights of the binding that the same pass
      ensures exactly when the Backup is in "default". */
  lemma JobRunsWithTheBoundAccount(c: Cluster, k: Key, api: Api)
    requires k in c.backups && !c.backups[k].deleting && Pass(c, k, api).result.Done?
    ensures RenderedCronKey(k) in Pass(c, k, api).c.cronJobs
    ensures var job, bound := Pass(c, k, api).c.cronJobs[RenderedCronKey(k)], RenderClusterRoleBinding(k.ns);
            Key(RenderedCronKey(k).ns, job.spec.serviceAccount) == Key(bound.subjectNs, bound.subject)
            <==> k.ns == "default"
    ensures RenderClusterRoleBinding(k.ns).subjectNs == k.ns && RenderClusterRoleBinding(k.ns).subject == "horusctl"
  {
    StoredCronJob(c, k, api);
  }

  /** The CronJob hands the name of the backed-up resource to horusctl, which
      takes it for the name of a Backup: the job runs the Backup that rendered
      it exactly when the two names are equal. */
  lemma CronJobRunsItsOwnBackup(c: Cluster, k: Key, api: Api, p: PassResult)
    requires k in c.backups && !c.backups[k].deleting
    requires p == Pass(c, k, api) && p.result.Done?
    ensures RenderedCronKey(k) in p.c.cronJobs
    ensures var job := p.c.cronJobs[RenderedCronKey(k)].spec;
            Key(job.ns, job.target) == k <==> c.backups[k].spec.target == k.name
  {
    QuietPass(c, k, api);
  }
}

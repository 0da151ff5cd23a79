/** The controller one API call at a time, interleaved with everybody else who
    may write to the cluster, and with crashes of the controller. */
module Interleaving {
  import opened Cluster
  import opened Reconcile

  /** The single worker is idle or about to issue a call of a pass on k that
      fetched b. */
  datatype Worker = Idle | At(site: CallSite, k: Key, b: Backup)

  datatype State = State(c: Cluster, worker: Worker)

  datatype Move =
    | Begin(k: Key)
    | Issue(reply: Reply)
    | Crash
    | Environment(c: Cluster)

  function Fetch(c: Cluster, k: Key): Worker {
    if k in c.backups then At(GetServiceAccount, k, c.backups[k]) else Idle
  }

  function Step(s: State, m: Move): State
    requires Enabled(s, m)
  {
    match m
    case Begin(k) => State(s.c, Fetch(s.c, k))
    case Issue(reply) =>
      var o := Call(s.c, s.worker.site, s.worker.k, s.worker.b, reply);
      State(o.c, if o.next.Jump? then At(o.next.site, s.worker.k, s.worker.b) else Idle)
    case Crash => State(s.c, Idle)
    case Environment(c) => State(c, s.worker)
  }

  predicate Enabled(s: State, m: Move) {
    match m
    case Begin(_) => s.worker.Idle?
    case Issue(_) => s.worker.At? && s.worker.site != GetBackup
    case Crash => true
    case Environment(c) => Others(s.c, c)
  }

  /** What users and other controllers may do to a Backup.  Our finalizer is
      ours to remove, and a deleting object takes no new finalizers. */
  predicate OthersOnBackup(b: Backup, b': Backup) {
    && b'.uid == b.uid
    && (FINALIZER in b.finalizers ==> FINALIZER in b'.finalizers)
    && (b.deleting ==> b'.deleting && b'.finalizers <= b.finalizers)
    && (b'.deleting && !b.deleting ==> b'.finalizers == b.finalizers)
  }

  /** Others create no binding; they may do anything to the remaining objects. */
  predicate Others(c: Cluster, c': Cluster) {
    && (forall k | k in c.backups ::
          if k in c'.backups then OthersOnBackup(c.backups[k], c'.backups[k])
          else FINALIZER !in c.backups[k].finalizers)
    && (forall k | k in c'.backups && k !in c.backups :: !c'.backups[k].deleting)
    && c'.bindings.Keys <= c.bindings.Keys
  }

  ghost predicate IsRun(run: seq<State>, moves: seq<Move>) {
    && |run| == |moves| + 1
    && forall i :: 0 <= i < |moves| ==> Enabled(run[i], moves[i]) && run[i + 1] == Step(run[i], moves[i])
  }

  // ---- a pass is a run -------------------------------------------------------

  ghost predicate Undisturbed(moves: seq<Move>) {
    forall i :: 0 <= i < |moves| ==> !moves[i].Environment? && !moves[i].Crash?
  }

  lemma Compose(run1: seq<State>, moves1: seq<Move>, run2: seq<State>, moves2: seq<Move>)
    requires IsRun(run1, moves1) && IsRun(run2, moves2)
    requires run1[|moves1|] == run2[0]
    ensures IsRun(run1 + run2[1..], moves1 + moves2)
    ensures (run1 + run2[1..])[|moves1| + |moves2|] == run2[|moves2|]
  {
    var run, moves := run1 + run2[1..], moves1 + moves2;
    forall i | 0 <= i < |moves|
      ensures Enabled(run[i], moves[i]) && run[i + 1] == Step(run[i], moves[i])
    {
      if i >= |moves1| {
        assert run[i] == run2[i - |moves1|] && run[i + 1] == run2[i + 1 - |moves1|];
      }
    }
  }

  lemma {:induction false} DriveAsRun(c: Cluster, site: CallSite, k: Key, b: Backup, api: Api)
    returns (run: seq<State>, moves: seq<Move>)
    requires site != GetBackup
    ensures IsRun(run, moves) && Undisturbed(moves)
    ensures run[0] == State(c, At(site, k, b))
    ensures run[|moves|] == State(Drive(c, site, k, b, api).c, Idle)
    decreases Remaining(site)
  {
    var s, m := State(c, At(site, k, b)), Issue(api(site));
    var o := Call(c, site, k, b, api(site));
    if o.next.Jump? {
      run, moves := DriveAsRun(o.c, o.next.site, k, b, api);
      Compose([s, Step(s, m)], [m], run, moves);
      run, moves := [s, Step(s, m)] + run[1..], [m] + moves;
    } else {
      run, moves := [s, Step(s, m)], [m];
    }
  }

  /** Every uninterrupted pass, whatever its replies, is a run of the machine. */
  lemma PassAsRun(c: Cluster, k: Key, api: Api) returns (run: seq<State>, moves: seq<Move>)
    ensures IsRun(run, moves) && Undisturbed(moves)
    ensures run[0] == State(c, Idle)
    ensures run[|moves|] == State(Pass(c, k, api).c, Idle)
  {
    var s, m := State(c, Idle), Begin(k);
    if api(GetBackup).Failed? {
      run, moves := [s], [];
    } else if k !in c.backups {
      run, moves := [s, Step(s, m)], [m];
    } else {
      run, moves := DriveAsRun(c, GetServiceAccount, k, c.backups[k], api);
      Compose([s, Step(s, m)], [m], run, moves);
      run, moves := [s, Step(s, m)] + run[1..], [m] + moves;
    }
  }

  // ---- no orphan binding --------------------------------------------------------

  ghost predicate NoOrphan(c: Cluster) {
    forall ns :: BindingName(ns) in c.bindings ==> HasBackup(c, ns)
  }

  /** The premise on deletions: whoever deletes a Backup finds our finalizer on
      it, and no other. */
  predicate GentleDeletion(c: Cluster, c': Cluster) {
    forall k | k in c.backups ::
      (k in c'.backups ==> c'.backups[k].deleting && !c.backups[k].deleting) ==>
        c.backups[k].finalizers == {FINALIZER}
  }

  ghost predicate Gentle(run: seq<State>, moves: seq<Move>)
    requires IsRun(run, moves)
  {
    forall i :: 0 <= i < |moves| && moves[i].Environment? ==> GentleDeletion(run[i].c, moves[i].c)
  }

  ghost predicate OrphanFree(s: State) {
    && NoOrphan(s.c)
    && (forall k | k in s.c.backups :: s.c.backups[k].deleting ==> s.c.backups[k].finalizers == {FINALIZER})
    && (s.worker.At? ==>
          && s.worker.k in s.c.backups
          && (s.worker.site in {DeleteBinding, RemoveFinalizer} ==> s.worker.b.deleting)
          && (s.worker.site == AddFinalizer ==> !s.worker.b.deleting)
          && (s.worker.site == RemoveFinalizer ==> BindingName(s.worker.k.ns) !in s.c.bindings))
  }

  lemma OrphanFreeIssue(s: State, reply: Reply)
    requires OrphanFree(s) && Enabled(s, Issue(reply))
    ensures OrphanFree(Step(s, Issue(reply)))
  {
    var s', k := Step(s, Issue(reply)), s.worker.k;
    IssueShape(s, reply);
    OrphanFreeStore(s.c, s'.c, k);
    CallWrites(s.c, s.worker.site, k, s.worker.b, reply);
    CallJumps(s.c, s.worker.site, k, s.worker.b, reply);
    hide Call, NoOrphan, BindingName;
  }

  /** Which calls lead to the writes at the end of a pass, and when. */
  lemma CallJumps(c: Cluster, site: CallSite, k: Key, b: Backup, reply: Reply)
    requires site != GetBackup
    ensures var o := Call(c, site, k, b, reply);
            o.next.Jump? ==>
              && site !in {AddFinalizer, RemoveFinalizer}
              && (o.next.site == UpdateCronJob ==> site == GetCronJob && LookupCronKey(k) in c.cronJobs)
              && (o.next.site in {AddFinalizer, DeleteBinding} ==> site == UpdateCronJob)
              && (o.next.site == AddFinalizer ==> !b.deleting)
              && (o.next.site == DeleteBinding ==> b.deleting)
              && (o.next.site == RemoveFinalizer ==> site == DeleteBinding)
              && (site == DeleteBinding ==>
                    reply == Answered && BindingName(k.ns) in c.bindings && o.c == DropBinding(c, k.ns))
  {
    hide BindingName, LookupCronKey, RenderedCronKey;
  }

  /** What a call can do to Backups and bindings: drop k, but only where the
      binding is gone; and touch no binding but that of k's namespace. */
  lemma IssueShape(s: State, reply: Reply)
    requires OrphanFree(s) && Enabled(s, Issue(reply))
    ensures var c, c', k := s.c, Step(s, Issue(reply)).c, s.worker.k;
            && c'.bindings - {BindingName(k.ns)} == c.bindings - {BindingName(k.ns)}
            && c.backups.Keys - {k} <= c'.backups.Keys
            && (k !in c'.backups ==> BindingName(k.ns) !in c'.bindings)
  {
    var c, c', k, b := s.c, Step(s, Issue(reply)).c, s.worker.k, s.worker.b;
    CallWrites(c, s.worker.site, k, b, reply);
    hide Call, Step;
    var name := BindingName(k.ns);
    assert PutClusterRoleBinding(c, k.ns).bindings - {name} == c.bindings - {name};
    assert DropBinding(c, k.ns).bindings - {name} == c.bindings - {name};
  }

  /** Which calls write Backups, which write bindings, and how. */
  lemma CallWrites(c: Cluster, site: CallSite, k: Key, b: Backup, reply: Reply)
    requires site != GetBackup
    ensures var c' := Call(c, site, k, b, reply).c;
            && (c'.backups == c.backups
                || (site == AddFinalizer && Unchanged(c, k, b) && c' == PutFinalizer(c, k, b))
                || (site == RemoveFinalizer && Unchanged(c, k, b) && c' == DropFinalizer(c, k, b)))
            && (c'.bindings == c.bindings
                || (site in {CreateBinding, UpdateBinding} && c' == PutClusterRoleBinding(c, k.ns))
                || (site == DeleteBinding && c' == DropBinding(c, k.ns)))
  {
    hide BindingName, RenderedCronKey, LookupCronKey;
  }

  lemma OrphanFreeStore(c: Cluster, c': Cluster, k: Key)
    requires NoOrphan(c)
    requires c'.bindings - {BindingName(k.ns)} == c.bindings - {BindingName(k.ns)}
    requires c.backups.Keys - {k} <= c'.backups.Keys
    requires k !in c'.backups ==> BindingName(k.ns) !in c'.bindings
    ensures NoOrphan(c')
  {
    forall ns | BindingName(ns) in c'.bindings
      ensures HasBackup(c', ns)
    {
      if BindingName(ns) == BindingName(k.ns) {
        BindingNameInjective(ns, k.ns);
        assert k in c'.backups;
      } else {
        assert BindingName(ns) in c'.bindings - {BindingName(k.ns)};
        var w :| w in c.backups && w.ns == ns;
        assert w in c'.backups;
      }
    }
  }

  lemma OrphanFreeEnvironment(s: State, c: Cluster)
    requires OrphanFree(s) && Others(s.c, c) && GentleDeletion(s.c, c)
    ensures OrphanFree(Step(s, Environment(c)))
  {
    forall k | k in s.c.backups
      ensures k in c.backups
    {
    }
    forall ns | BindingName(ns) in c.bindings
      ensures HasBackup(c, ns)
    {
      var w :| w in s.c.backups && w.ns == ns;
      assert w in c.backups;
    }
  }

  /** Over every run whose deletions are gentle, with crashes and failing or
      half-failing calls anywhere, a namespace has a binding only while it has a
      Backup.  In particular nothing recreates the binding after the last Backup
      of a namespace has gone. */
  lemma {:induction false} NoOrphanBinding(run: seq<State>, moves: seq<Move>, i: nat)
    requires IsRun(run, moves) && Gentle(run, moves)
    requires OrphanFree(run[0])
    requires i < |run|
    ensures OrphanFree(run[i])
  {
    if i > 0 {
      NoOrphanBinding(run, moves, i - 1);
      var s, m := run[i - 1], moves[i - 1];
      match m
      case Begin(k) =>
      case Crash =>
      case Issue(reply) => OrphanFreeIssue(s, reply);
      case Environment(c) => OrphanFreeEnvironment(s, c);
    }
  }

  // ---- both halves of the premise are needed --------------------------------------

  const WITNESS := Key(DEFAULT_NAMESPACE, "nginx")
  const WITNESS_SPEC := BackupSpec("nginx", "info", "json", "UTC")

  /** A cluster with the account and the role in place, and nothing else. */
  function Prepared(backups: map<Key, Backup>): Cluster {
    Cluster(backups, map[DEFAULT_NAMESPACE := ServiceAccount(None, true)], Some(RenderClusterRole()), map[], map[])
  }

  /** Deleting a Backup before it carries our finalizer leaves an orphan: one
      pass creates the binding, then the user deletes the Backup. */
  lemma DeletedTooEarly() returns (run: seq<State>, moves: seq<Move>)
    ensures IsRun(run, moves) && OrphanFree(run[0])
    ensures |moves| > 0 && Undisturbed(moves[..|moves| - 1]) && moves[|moves| - 1].Environment?
    ensures run[|moves| - 1].c.backups == map[WITNESS := Backup(1, WITNESS_SPEC, 1, false, {})]
    ensures !NoOrphan(run[|moves|].c)
  {
    var k, b := WITNESS, Backup(1, WITNESS_SPEC, 1, false, {});
    var c1 := Prepared(map[k := b]);
    CleanPassIsPass(c1, k);
    var c2 := Pass(c1, k, Reliable()).c;
    var c3 := c2.(backups := map[]);
    run, moves := PassAsRun(c1, k, Reliable());
    run, moves := Extend(run, moves, c3);
    assert BindingName(DEFAULT_NAMESPACE) in c3.bindings && !HasBackup(c3, DEFAULT_NAMESPACE);
  }

  /** Deleting a Backup that carries a second finalizer leaves an orphan too: the
      first pass releases our finalizer, the second recreates the binding, and
      then the other finalizer goes. */
  lemma DeletedWithForeignFinalizer() returns (run: seq<State>, moves: seq<Move>)
    ensures IsRun(run, moves) && OrphanFree(run[0])
    ensures |moves| > 1 && moves[0].Environment? && moves[|moves| - 1].Environment?
    ensures Undisturbed(moves[1..|moves| - 1])
    ensures WITNESS in run[0].c.backups && run[0].c.backups[WITNESS].finalizers == {FINALIZER, "x"}
    ensures !NoOrphan(run[|moves|].c)
  {
    hide CleanPass;
    var k, b := WITNESS, Backup(1, WITNESS_SPEC, 1, false, {FINALIZER, "x"});
    var full := Prepared(map[k := b]).(
    bindings := map[BindingName(k.ns) := RenderClusterRoleBinding(k.ns)],
    cronJobs := map[RenderedCronKey(k) := RenderCronJob(k, b, 1)]);
    var gone := b.(deleting := true);
    var c1 := full.(backups := map[k := gone]);
    assert NoOrphan(full) by { assert k in full.backups; OnlyBinding(full, k.ns); }
    run, moves := [State(full, Idle), State(c1, Idle)], [Environment(c1)];
    ReleasedAndRecreated(c1, gone);
    var more;
    run, moves, more := ExtendByPass(run, moves, k);
    run, moves, more := ExtendByPass(run, moves, k);
    var c4 := run[|moves|].c.(backups := map[]);
    run, moves := Extend(run, moves, c4);
    assert BindingName(DEFAULT_NAMESPACE) in c4.bindings && !HasBackup(c4, DEFAULT_NAMESPACE);
  }

  /** Two passes on a deleting Backup with a second finalizer and all dependents. */
  lemma ReleasedAndRecreated(c: Cluster, b: Backup)
    requires c.backups == map[WITNESS := b] && b.deleting && b.finalizers == {FINALIZER, "x"}
    requires StageOf(c, WITNESS) == Full
    ensures var c' := CleanPass(CleanPass(c, WITNESS).c, WITNESS).c;
            BindingName(DEFAULT_NAMESPACE) in c'.bindings && c'.backups == map[WITNESS := b.(finalizers := {"x"})]
  {
    hide BindingName, CronName;
    var c1 := CleanPass(c, WITNESS).c;
    assert b.finalizers - {FINALIZER} == {"x"};
    assert c1.backups == map[WITNESS := b.(finalizers := {"x"})];
    assert StageOf(c1, WITNESS) == NeedBinding;
  }

  lemma ExtendByPass(run: seq<State>, moves: seq<Move>, k: Key)
    returns (run': seq<State>, moves': seq<Move>, more: seq<Move>)
    requires IsRun(run, moves) && run[|moves|].worker.Idle?
    ensures IsRun(run', moves') && run <= run'
    ensures moves' == moves + more && Undisturbed(more)
    ensures run'[|moves'|] == State(CleanPass(run[|moves|].c, k).c, Idle)
  {
    hide Pass, CleanPass;
    CleanPassIsPass(run[|moves|].c, k);
    var r, m := PassAsRun(run[|moves|].c, k, Reliable());
    Compose(run, moves, r, m);
    run', moves', more := run + r[1..], moves + m, m;
  }

  lemma OnlyBinding(c: Cluster, ns: string)
    requires c.bindings.Keys == {BindingName(ns)} && HasBackup(c, ns)
    ensures NoOrphan(c)
  {
    forall other | BindingName(other) in c.bindings
      ensures HasBackup(c, other)
    {
      BindingNameInjective(other, ns);
    }
  }

  lemma Extend(run: seq<State>, moves: seq<Move>, c: Cluster) returns (run': seq<State>, moves': seq<Move>)
    requires IsRun(run, moves) && Others(run[|moves|].c, c)
    ensures IsRun(run', moves') && moves' == moves + [Environment(c)]
    ensures run' == run + [State(c, run[|moves|].worker)]
  {
    var s, m := run[|moves|], Environment(c);
    Compose(run, moves, [s, Step(s, m)], [m]);
    run', moves' := run + [Step(s, m)], moves + [m];
    assert [s, Step(s, m)][1..] == [Step(s, m)];
  }

  // ---- release ----------------------------------------------------------------------

  predicate Carries(c: Cluster, k: Key) {
    k in c.backups && FINALIZER in c.backups[k].finalizers
  }

  /** From step j on, up to step i, the worker is in the pass on k that has just
      deleted the binding. */
  ghost predicate DeletedSince(run: seq<State>, moves: seq<Move>, k: Key, j: int, i: int)
    requires IsRun(run, moves)
  {
    && 0 <= j < i < |run|
    && run[j].worker.At? && run[j].worker.site == DeleteBinding && run[j].worker.k == k
    && moves[j] == Issue(Answered)
    && BindingName(k.ns) in run[j].c.bindings && BindingName(k.ns) !in run[j + 1].c.bindings
    && forall l {:trigger run[l]} :: j < l <= i ==> run[l].worker == At(RemoveFinalizer, k, run[j].worker.b)
  }

  lemma {:induction false} RemovalSiteAfterDelete(run: seq<State>, moves: seq<Move>, i: nat) returns (j: int)
    requires IsRun(run, moves) && run[0].worker.Idle?
    requires i < |run| && run[i].worker.At? && run[i].worker.site == RemoveFinalizer
    ensures DeletedSince(run, moves, run[i].worker.k, j, i)
  {
    assert i > 0;
    var s, m := run[i - 1], moves[i - 1];
    assert run[i] == Step(s, m);
    if m.Environment? {
      j := RemovalSiteAfterDelete(run, moves, i - 1);
    } else {
      j := i - 1;
      assert m.Issue? && s.worker.At?;
      assert s.worker.site == DeleteBinding by { EntersRemoval(s, m.reply); }
    }
  }

  lemma EntersRemoval(s: State, reply: Reply)
    requires Enabled(s, Issue(reply))
    requires var w := Step(s, Issue(reply)).worker; w.At? && w.site == RemoveFinalizer
    ensures s.worker.site == DeleteBinding && reply == Answered && BindingName(s.worker.k.ns) in s.c.bindings
    ensures BindingName(s.worker.k.ns) !in Step(s, Issue(reply)).c.bindings
  {
    CallJumps(s.c, s.worker.site, s.worker.k, s.worker.b, reply);
    hide Call, BindingName;
  }

  /** In every run, at every step at which a Backup stops carrying our finalizer,
      whether it survives that step or not, the worker is in a pass on that very
      Backup which has deleted the binding successfully and done nothing since. */
  lemma ReleaseOnlyAfterDelete(run: seq<State>, moves: seq<Move>, i: nat, k: Key) returns (j: int)
    requires IsRun(run, moves) && run[0].worker.Idle?
    requires i < |moves| && Carries(run[i].c, k) && !Carries(run[i + 1].c, k)
    ensures DeletedSince(run, moves, k, j, i)
  {
    var s, m := run[i], moves[i];
    assert run[i + 1] == Step(s, m);
    assert m.Issue?;
    OnlyRemovalReleases(s, m.reply, k);
    j := RemovalSiteAfterDelete(run, moves, i);
  }

  lemma OnlyRemovalReleases(s: State, reply: Reply, k: Key)
    requires Enabled(s, Issue(reply)) && Carries(s.c, k) && !Carries(Step(s, Issue(reply)).c, k)
    ensures s.worker.site == RemoveFinalizer && s.worker.k == k
  {
    CallWrites(s.c, s.worker.site, s.worker.k, s.worker.b, reply);
    hide Call;
  }

  /** A delete that reports failure ends the pass with every Backup as it was. */
  lemma FailedDeleteKeepsFinalizer(s: State, applied: bool)
    requires s.worker.At? && s.worker.site == DeleteBinding
    ensures var s' := Step(s, Issue(Failed(applied)));
            s'.worker.Idle? && s'.c.backups == s.c.backups
  {
  }

  // ---- namespaces other than "default" --------------------------------------------------

  /** Nobody else puts a CronJob into ns. */
  ghost predicate NoCronJobIn(c: Cluster, ns: string) {
    forall at :: at in c.cronJobs ==> at.ns != ns
  }

  ghost predicate LeavesNamespaceAlone(moves: seq<Move>, ns: string) {
    forall i :: 0 <= i < |moves| && moves[i].Environment? ==> NoCronJobIn(moves[i].c, ns)
  }

  /** The CronJob is rendered into "default" but looked up in the namespace of
      the Backup.  So in any other namespace no pass of any run ever updates the
      CronJob or gets to the finalizer: it ends at the CronJob's creation. */
  lemma {:induction false} ForeignNamespaceNeverFinalizes(run: seq<State>, moves: seq<Move>, ns: string, i: nat)
    requires IsRun(run, moves) && run[0].worker.Idle?
    requires ns != DEFAULT_NAMESPACE && NoCronJobIn(run[0].c, ns) && LeavesNamespaceAlone(moves, ns)
    requires i < |run|
    ensures ShortOfFinalizer(run[i], ns)
  {
    if i > 0 {
      ForeignNamespaceNeverFinalizes(run, moves, ns, i - 1);
      var s, m := run[i - 1], moves[i - 1];
      assert run[i] == Step(s, m);
      if m.Issue? {
        StaysShortOfFinalizer(s, m.reply, ns);
      }
    }
  }

  ghost predicate ShortOfFinalizer(s: State, ns: string) {
    && NoCronJobIn(s.c, ns)
    && (s.worker.At? && s.worker.k.ns == ns ==>
          s.worker.site !in {UpdateCronJob, AddFinalizer, DeleteBinding, RemoveFinalizer})
  }

  lemma StaysShortOfFinalizer(s: State, reply: Reply, ns: string)
    requires Enabled(s, Issue(reply)) && ns != DEFAULT_NAMESPACE && ShortOfFinalizer(s, ns)
    ensures ShortOfFinalizer(Step(s, Issue(reply)), ns)
  {
    var s', k := Step(s, Issue(reply)), s.worker.k;
    assert LookupCronKey(k) in s.c.cronJobs ==> k.ns != ns;
    CallJumps(s.c, s.worker.site, k, s.worker.b, reply);
    OneCronKey(s.c, s.worker.site, k, s.worker.b, reply);
    hide Call;
  }

  lemma OneCronKey(c: Cluster, site: CallSite, k: Key, b: Backup, reply: Reply)
    requires site != GetBackup
    ensures Call(c, site, k, b, reply).c.cronJobs.Keys <= c.cronJobs.Keys + {RenderedCronKey(k)}
  {
    hide BindingName, RenderedCronKey, LookupCronKey;
  }

  lemma KeepsBinding(s: State, reply: Reply, ns: string)
    requires Enabled(s, Issue(reply)) && ShortOfFinalizer(s, ns) && BindingName(ns) in s.c.bindings
    ensures BindingName(ns) in Step(s, Issue(reply)).c.bindings
  {
    if BindingName(s.worker.k.ns) == BindingName(ns) {
      BindingNameInjective(s.worker.k.ns, ns);
    }
    CallWrites(s.c, s.worker.site, s.worker.k, s.worker.b, reply);
    hide Call, BindingName;
  }

  /** Hence the binding of such a namespace, once there, is there for good unless
      somebody else deletes it, even when the last Backup of the namespace goes. */
  lemma {:induction false} ForeignNamespaceLeaksBinding(run: seq<State>, moves: seq<Move>, ns: string, i: nat, j: nat)
    requires IsRun(run, moves) && run[0].worker.Idle?
    requires ns != DEFAULT_NAMESPACE && NoCronJobIn(run[0].c, ns) && LeavesNamespaceAlone(moves, ns)
    requires forall l :: 0 <= l < |moves| && moves[l].Environment? && BindingName(ns) in run[l].c.bindings ==>
                           BindingName(ns) in moves[l].c.bindings
    requires i <= j < |run| && BindingName(ns) in run[i].c.bindings
    ensures BindingName(ns) in run[j].c.bindings
    decreases j
  {
    if i < j {
      ForeignNamespaceLeaksBinding(run, moves, ns, i, j - 1);
      ForeignNamespaceNeverFinalizes(run, moves, ns, j - 1);
      assert moves[j - 1].Environment? ==> BindingName(ns) in moves[j - 1].c.bindings;
      StepKeepsBinding(run[j - 1], moves[j - 1], ns);
    }
  }

  lemma StepKeepsBinding(s: State, m: Move, ns: string)
    requires Enabled(s, m) && ShortOfFinalizer(s, ns) && BindingName(ns) in s.c.bindings
    requires m.Environment? ==> BindingName(ns) in m.c.bindings
    ensures BindingName(ns) in Step(s, m).c.bindings
  {
    if m.Issue? {
      KeepsBinding(s, m.reply, ns);
    }
  }
}

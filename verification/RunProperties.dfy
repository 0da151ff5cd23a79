/** What the contract of Do means: coverage, aim, cleanup, and two runs at once. */
module RunProperties {
  import opened Cluster
  import opened HelperNames
  import opened Retry
  import opened RunLog
  import opened BackupRun
  import M = PvcMap

  // ---- exact coverage --------------------------------------------------------------

  /** The run got as far as the storages. */
  predicate Started(w: World) {
    w.backup.Ok? && PvcpvMapOf(w.backup.value.resource, w).Ok?
  }

  /** How often a pair was completed: exactly once for the storages before the one
      the run failed at, at most once for that one, never for later ones. */
  lemma CompletedPairs(storages: seq<Storage>, claims: set<string>, batches: seq<seq<string>>, o: Outcome, p: Pair)
    requires Distinct(storages) && |batches| <= |storages|
    requires Covered(Batches(storages, batches), storages, claims, batches, o)
    ensures var full := if o == Succeeded then |storages| else |batches| - 1;
            var n := Occurrences(Batches(storages, batches), p);
            && 0 <= full <= |storages|
            && (p.storage in storages[..full] ==> n == if p.pvc in claims then 1 else 0)
            && (full < |storages| && p.storage == storages[full] ==> n <= if p.pvc in claims then 1 else 0)
            && (p.storage !in storages[..full] && (full < |storages| ==> p.storage != storages[full]) ==> n == 0)
  {
    if o == Succeeded {
      CoveredOnce(storages, batches, claims, p);
      assert storages[..|storages|] == storages;
    } else {
      var n := |batches| - 1;
      CoveredOnce(storages, batches[..n], claims, p);
      PairsCount(storages[n], batches[n], p);
      assert p.pvc in batches[n] ==> p.pvc in (set q | q in batches[n]);
      assert storages[n] !in storages[..n];
    }
  }

  lemma FullBatchStarts(batch: seq<string>, m: M.PvcpvMap)
    requires FullBatch(batch, m.Keys) && m != map[]
    ensures batch != []
  {
  }

  /** If Do succeeds, every requested storage is nfs, minio or sftp, and every pair
      of a requested storage and a claim of the map was backed up exactly once,
      and nothing else was. */
  lemma ExactCoverage(w: World, initialised: set<Storage>, m: Result<M.PvcpvMap>,
                      storages: seq<Storage>, batches: seq<seq<string>>,
                      backups: seq<Op>, p: Pair)
    requires Started(w) && Reported(w, initialised, Succeeded, m, storages, batches, backups)
    ensures Occurrences(Completed(backups), p)
         == if p.storage in w.backup.value.to && p.pvc in m.value then 1 else 0
    ensures forall s :: s in w.backup.value.to ==> Supported(s)
  {
    hide Completed, Batches, Occurrences, Supported, AllAimed, AllExplained, FullBatch;
    CompletedPairs(storages, m.value.Keys, batches, Succeeded, p);
    assert storages[..|storages|] == storages;
    forall s | s in w.backup.value.to
      ensures Supported(s)
    {
      var q :| 0 <= q < |storages| && storages[q] == s;
      SuccessMeansSupported(w, m.value, storages, batches, initialised, q);
    }
  }

  lemma SuccessMeansSupported(w: World, m: M.PvcpvMap, storages: seq<Storage>, batches: seq<seq<string>>,
                              initialised: set<Storage>, q: nat)
    requires w.backup.Ok? && AllExplained(w.backup.value.resource, w, m, storages, batches, initialised, Succeeded)
    requires q < |batches| && FullBatch(batches[q], m.Keys) && m != map[]
    ensures Supported(storages[q])
  {
    FullBatchStarts(batches[q], m);
    assert Explained(w.backup.value.resource, w, m, storages[q], batches[q], storages[q] in initialised, Succeeded);
    assert batches[q][0] in m;
  }

  /** A claim is ready for a storage if its attempt succeeds whether or not the
      repository is initialised by then. */
  predicate Ready(resource: Resource, storage: Storage, meta: M.Meta, a: Attempt) {
    !resource.OtherResource? && Succeeds(storage, meta, a, true) && Succeeds(storage, meta, a, false)
  }

  /** Do fails only for a reason: when every claim is ready for every storage it
      succeeds, in whatever order the map yields the claims. */
  lemma ReadyRunSucceeds(w: World, initialised: set<Storage>, o: Outcome, m: Result<M.PvcpvMap>,
                         storages: seq<Storage>, batches: seq<seq<string>>, backups: seq<Op>)
    requires Started(w) && Reported(w, initialised, o, m, storages, batches, backups)
    requires forall s, pvc | s in w.backup.value.to && pvc in m.value ::
               Ready(w.backup.value.resource, s, m.value[pvc], w.attempt(s, pvc))
    ensures o == Succeeded
  {
    if o != Succeeded {
      var pvc := Culprit(w, initialised, o, m, storages, batches, backups);
    }
  }

  /** When Do fails at a storage, that outcome is the verdict on one claim which
      was not completed there. */
  lemma Culprit(w: World, initialised: set<Storage>, o: Outcome, m: Result<M.PvcpvMap>,
                storages: seq<Storage>, batches: seq<seq<string>>, backups: seq<Op>) returns (pvc: string)
    requires Started(w) && Reported(w, initialised, o, m, storages, batches, backups) && o != Succeeded
    ensures 0 < |batches| <= |storages|
    ensures var s, done := storages[|batches| - 1], batches[|batches| - 1];
            && s in w.backup.value.to && pvc in m.value && pvc !in done
            && Verdict(w.backup.value.resource, s, m.value[pvc], w.attempt(s, pvc), s in initialised || done != []) == o
  {
    hide Verdict;
    var q := |batches| - 1;
    var s, done := storages[q], batches[q];
    assert Explained(w.backup.value.resource, w, m.value, s, done, s in initialised, o);
    pvc :| && pvc in m.value && pvc !in done
           && Verdict(w.backup.value.resource, s, m.value[pvc], w.attempt(s, pvc), s in initialised || done != []) == o;
  }

  // ---- the right data on the right node ------------------------------------------------

  predicate Mounts(a: M.Answers, i: nat, j: nat, pvc: string) {
    i < |a.pods| && a.pods[i].claims.Ok? && j < |a.pods[i].claims.value| && a.pods[i].claims.value[j] == pvc
  }

  /** The backup op reads what pod i of the list mounts as its claim j.  It runs on
      that pod's node.  If the volume behind the claim is of source hostPath or
      local, the volume itself named the directory, and that is read.  Otherwise
      the directory is what the search said first when asked on that node with that
      pod's uid and that source, and the volume's name under it is read. */
  ghost predicate Hits(a: M.Answers, op: Op, i: nat, j: nat, i': nat, j': nat, dir: string)
    requires op.Restic?
  {
    && Mounts(a, i, j, op.pvc) && Mounts(a, i', j', op.pvc) && dir != ""
    && a.pods[i].node == Ok(op.pod.node) && a.pods[i].uid.Ok?
    && a.lookup(i, j).pv(op.pvc).Ok?
    && var pv := a.lookup(i, j).pv(op.pvc).value;
    pv != "" && a.lookup(i, j).source(pv).Ok? && Reads(a, op, i, i', j', pv, a.lookup(i, j).source(pv).value, dir)
  }

  ghost predicate Reads(a: M.Answers, op: Op, i: nat, i': nat, j': nat, pv: string, source: string, dir: string)
    requires op.Restic? && i < |a.pods| && a.pods[i].uid.Ok?
  {
    if source == "hostPath" || source == "local" then
      a.search(i', j').pvPath(pv) == Ok(dir) && op.path == "/host-root/" + dir
    else
      && op.path == "/host-root/" + dir + "/" + pv
      && var asked := M.Query(node := op.pod.node, uid := a.pods[i].uid.value, source := source);
      exists n: nat :: FirstSaid(a.search(i', j').output(asked), n, dir)
  }

  lemma EveryBackupHitsItsData(w: World, initialised: set<Storage>, o: Outcome, m: Result<M.PvcpvMap>,
                               storages: seq<Storage>, batches: seq<seq<string>>, backups: seq<Op>, op: Op)
    returns (i: nat, j: nat, i': nat, j': nat, dir: string)
    requires Reported(w, initialised, o, m, storages, batches, backups) && op in backups
    ensures op.Restic? && m.Ok? && Hits(w.answers, op, i, j, i', j', dir)
    ensures M.ResolvedAt(w.answers, |w.answers.pods|, op.pvc, i, j)
    ensures op.pvc in m.value && m.value[op.pvc] == M.Fresh(w.answers, i, j).(pvdir := dir)
  {
    var a := w.answers;
    var n := |a.pods|;
    M.MapIsSound(a, n);
    assert op.Restic? && op.pvc in m.value && Aimed(op, m.value[op.pvc]);
    var meta := m.value[op.pvc];
    assert M.Whole(a, n, op.pvc, meta) && M.Sought(a, n, op.pvc, meta);
    assert meta.(pvdir := "").pvname != "";
    i, j :| M.ResolvedAt(a, n, op.pvc, i, j) && meta.(pvdir := "") == M.Fresh(a, i, j);
    i', j' :| M.ClaimAt(a, n, op.pvc, i', j') && M.Directory(a.search(i', j'), meta) == Ok(meta.pvdir);
    dir := meta.pvdir;
    assert meta == M.Fresh(a, i, j).(pvdir := dir);
    PathWrittenOut(meta);
    DirectoryWrittenOut(a.search(i', j'), meta);
  }

  lemma PathWrittenOut(meta: M.Meta)
    ensures VolumePath(meta) ==
            if meta.volumeSource == "hostPath" || meta.volumeSource == "local" then "/host-root/" + meta.pvdir
            else "/host-root/" + meta.pvdir + "/" + meta.pvname
  {
    assert "/host-root" + "/" == "/host-root/";
  }

  lemma DirectoryWrittenOut(search: M.Search, meta: M.Meta)
    requires meta.pvdir != "" && M.Directory(search, meta) == Ok(meta.pvdir)
    ensures if meta.volumeSource == "hostPath" || meta.volumeSource == "local" then
              search.pvPath(meta.pvname) == Ok(meta.pvdir)
            else
              var asked := M.Query(node := meta.nodeName, uid := meta.podUID, source := meta.volumeSource);
              exists n: nat :: FirstSaid(search.output(asked), n, meta.pvdir)
  {
    FoundIsFirstSaid(search.output(M.Query(meta.nodeName, meta.podUID, meta.volumeSource)), meta.pvdir);
  }

  /** Command at of the log runs in a helper of its kind: call x applied it in the
      operator namespace, under the name that the run gives to helpers of this kind
      on the pod's node, and it is still there when the command is issued. */
  ghost predicate RunsInHelper(p: Process, job: Job, at: int, x: int)
    requires 0 <= at < |p.log| && InPod(p.log[at])
    reads p
  {
    var node := p.log[at].pod.node;
    && 0 <= x < at && KindFor(p.log[at]).Some?
    && var name := DeployName(KindFor(p.log[at]).value, node, job.name);
    && p.log[x] == Apply(p.operatorNs, KindFor(p.log[at]).value, name, node, true)
    && Key(p.operatorNs, name) in Helpers(p.helpersBefore, p.log[..at])
    && exists l :: Provided(p.log, at, x, l)
  }

  lemma EveryCommandRunsInItsHelper(p: Process, job: Job, at: nat) returns (x: int)
    requires p.Consistent() && p.Orderly(job) && at < |p.log| && InPod(p.log[at])
    ensures RunsInHelper(p, job, at, x)
  {
    var l;
    x, l := CommandsAreProvided(p.log, at);
    assert Fits(p.log[x], job, p.operatorNs);
    StaysCreated(p.helpersBefore, p.log[..at], x);
  }

  /** The name of that helper, written out. */
  predicate HelperNamed(op: Op, name: string, backup: string)
    requires op.Find? || op.Restic?
  {
    if op.Find? then name == "findpvdir-" + op.pod.node + "-" + backup
    else match op.storage
         case Nfs => name == "backup-to-nfs-" + op.pod.node + "-" + backup
         case MinIO => name == "backup-to-minio-" + op.pod.node + "-" + backup
         case Sftp => name == "backup-to-sftp-" + op.pod.node + "-" + backup
         case _ => false
  }

  lemma HelperIsNamed(p: Process, job: Job, at: nat, x: int)
    requires at < |p.log| && (p.log[at].Find? || p.log[at].Restic?) && RunsInHelper(p, job, at, x)
    ensures 0 <= x < at && p.log[x].Apply? && HelperNamed(p.log[at], p.log[x].name, job.name)
  {
    hide DeployName, Helpers, Provided;
    NamesWrittenOut(p.log[at].pod.node, job.name);
  }

  /** The right data on the right node, for every backup in the log of a run: it
      hits its data, in a helper of the storage's kind that the run has applied on
      the node of the pod whose data it is; and where the directory had to be
      searched for, an earlier command of the run asked for it with that pod's uid
      and that volume's source, in a findpvdir helper on that same node. */
  lemma EveryBackupIsRight(p: Process, job: Job, w: World, o: Outcome, m: Result<M.PvcpvMap>,
                           storages: seq<Storage>, batches: seq<seq<string>>, at: nat)
    returns (i: nat, j: nat, i': nat, j': nat, dir: string, x: int, f: int, y: int)
    requires p.Consistent() && p.Orderly(job)
    requires Reported(w, p.repositoriesBefore, o, m, storages, batches, Backups(p.log))
    requires m.Ok? ==> SearchedFirst(p.log, m.value)
    requires at < |p.log| && p.log[at].Restic?
    ensures Hits(w.answers, p.log[at], i, j, i', j', dir)
    ensures RunsInHelper(p, job, at, x) && HelperNamed(p.log[at], p.log[x].name, job.name)
    ensures var source := w.answers.lookup(i, j).source(w.answers.lookup(i, j).pv(p.log[at].pvc).value).value;
            source != "hostPath" && source != "local" ==>
              && 0 <= f < at && p.log[f].Find? && p.log[f].pod.node == p.log[at].pod.node
              && p.log[f].uid == w.answers.pods[i].uid.value && p.log[f].source == source
              && RunsInHelper(p, job, f, y) && HelperNamed(p.log[f], p.log[y].name, job.name)
  {
    hide RunsInHelper, HelperNamed, Reported, SearchedFirst, Backups, Helpers, DeployName, AllServed, FirstSaid;
    var op := p.log[at];
    BackupsAreLogged(p.log, at);
    i, j, i', j', dir := EveryBackupHitsItsData(w, p.repositoriesBefore, o, m, storages, batches, Backups(p.log), op);
    x := EveryCommandRunsInItsHelper(p, job, at);
    HelperIsNamed(p, job, at, x);
    f, y := -1, -1;
    var meta := m.value[op.pvc];
    if !M.SelfLocated(meta) {
      f := AskedBefore(p.log, m.value, op.pvc, at);
      y := EveryCommandRunsInItsHelper(p, job, f);
      HelperIsNamed(p, job, f, y);
    }
  }

  lemma AskedBefore(log: seq<Op>, m: M.PvcpvMap, pvc: string, at: nat) returns (f: int)
    requires SearchedFirst(log, m) && at < |log| && log[at].Restic?
    requires pvc in m && m[pvc].pvdir != "" && !M.SelfLocated(m[pvc])
    ensures 0 <= f < at && Asks(log[f], m[pvc])
  {
    var n :| 0 <= n <= |log| && Backups(log[..n]) == [] && Searched(log[..n], m);
    if at < n {
      BackupsAreLogged(log[..n], at);
    }
    f :| 0 <= f < n && Asks(log[..n][f], m[pvc]);
  }

  /** A claim that no pod resolved is never backed up. */
  lemma UnresolvedIsNeverBackedUp(w: World, initialised: set<Storage>, o: Outcome, m: Result<M.PvcpvMap>,
                                  storages: seq<Storage>,
                                  batches: seq<seq<string>>, backups: seq<Op>, pvc: string)
    requires Reported(w, initialised, o, m, storages, batches, backups)
    requires forall i: nat, j: nat :: !M.ResolvedAt(w.answers, |w.answers.pods|, pvc, i, j)
    ensures forall op | op in backups :: op.Restic? && op.pvc != pvc
  {
    forall op | op in backups
      ensures op.Restic? && op.pvc != pvc
    {
      var i, j, i', j', dir := EveryBackupHitsItsData(w, initialised, o, m, storages, batches, backups, op);
      assert M.ResolvedAt(w.answers, |w.answers.pods|, op.pvc, i, j);
    }
  }

  lemma {:induction false} CompletedIsBackup(backups: seq<Op>, p: Pair) returns (op: Op)
    requires p in Completed(backups)
    ensures op in backups && op.Restic? && op.ok && op.storage == p.storage && op.pvc == p.pvc
  {
    var n := |backups| - 1;
    op := backups[n];
    if p in Completed(backups[..n]) {
      op := CompletedIsBackup(backups[..n], p);
    }
  }

  /** So a run that succeeds and had anything to do has located every claim of its
      map: one claim that was never resolved, or never found, fails the run. */
  lemma SuccessMeansLocated(w: World, initialised: set<Storage>, m: Result<M.PvcpvMap>,
                            storages: seq<Storage>, batches: seq<seq<string>>,
                            backups: seq<Op>, pvc: string)
    requires Started(w) && Reported(w, initialised, Succeeded, m, storages, batches, backups)
    requires w.backup.value.to != {} && pvc in m.value
    ensures m.value[pvc].pvdir != "" && m.value[pvc].pvname != ""
  {
    var s :| s in w.backup.value.to;
    ExactCoverage(w, initialised, m, storages, batches, backups, Pair(s, pvc));
    assert Pair(s, pvc) in multiset(Completed(backups));
    var op := CompletedIsBackup(backups, Pair(s, pvc));
    assert Aimed(op, m.value[op.pvc]);
  }

  /** How an attempt ends, by what goes wrong first: nothing is tried for pvc or for
      another resource, or while the workload is not ready. */
  lemma VerdictWrittenOut(resource: Resource, storage: Storage, meta: M.Meta, a: Attempt, initialised: bool)
    ensures var o := Verdict(resource, storage, meta, a, initialised);
            var located := meta.pvdir != "" && meta.pvname != "";
            && (storage.Pvc? || resource.OtherResource? || !a.ready ==> o == Errored)
            && (!storage.Pvc? && !resource.OtherResource? && a.ready ==>
                  && (storage in {CephFs, S3, RestServer, Rclone} ==> o == if located then Crashed else Errored)
                  && (storage in {MinIO, Sftp} && a.preparation.NoSecret? ==> o == Errored)
                  && (storage == MinIO && a.preparation.NotMade? ==> o == Exited)
                  && (storage == Sftp && a.preparation.NotMade? ==> o == Errored)
                  && (storage == Nfs || (storage in {MinIO, Sftp} && a.preparation.Prepared?) ==>
                        (o == if M.HasServingPod(a.helper) && located && a.backup
                                 && (if initialised then a.check else a.init) then Succeeded else Errored)))
  {
  }

  /** The namespace of every call of a run, kind by kind. */
  lemma NamespaceDiscipline(p: Process, job: Job, i: nat)
    requires p.Orderly(job) && i < |p.log|
    ensures match p.log[i]
            case UserLookup(ns) => ns == job.ns
            case SecretGet(ns) => ns == p.operatorNs
            case Apply(ns, _, _, _, _) => ns == p.operatorNs
            case HelperQuery(ns, _) => ns == p.operatorNs
            case HelperPods(ns, _, _) => ns == p.operatorNs
            case Find(ns, _, _, _) => ns == p.operatorNs
            case Check(ns, _, _, _) => ns == p.operatorNs
            case Init(ns, _, _, _) => ns == p.operatorNs
            case Restic(ns, _, _, _, _, _) => ns == p.operatorNs
            case Delete(ns, _, _) => ns == p.operatorNs
  {
    assert Fits(p.log[i], job, p.operatorNs);
  }

  /** When a run ends before its first storage: the Backup or the pods cannot be
      read, the resource is of another kind, some pod ends the loops, or no claim
      of any pod got an entry. */
  lemma WhenNotStarted(w: World)
    ensures !Started(w) <==>
            || w.backup.Err? || w.backup.value.resource.OtherResource? || !w.listed
            || (exists i: nat :: i < |w.answers.pods| && M.Stops(w.answers, i))
            || (M.Trace(w.answers, |w.answers.pods|).Ok? && M.Fold(M.Trace(w.answers, |w.answers.pods|).value) == map[])
  {
    M.WhenLoopsErr(w.answers, |w.answers.pods|);
  }

  // ---- cleanup ------------------------------------------------------------------------------

  /** If all helpers of a run were on one node, and their deletions work, none
      survives. */
  lemma CleanupIsCompleteOnOneNode(p: Process, job: Job, o: Outcome, w: World, node: string)
    requires p.Orderly(job) && p.Accounted(o, w) && o != Exited
    requires forall i :: 0 <= i < |p.log| && p.log[i].Apply? ==> w.deletes(p.log[i].name)
    requires forall i :: 0 <= i < |p.log| && p.log[i].Apply? ==> p.log[i].node == node
    ensures forall i :: 0 <= i < |p.log| && p.log[i].Apply? && p.log[i].created ==>
                          Key(p.log[i].ns, p.log[i].name) !in p.helpers
  {
    forall i | 0 <= i < |p.log| && p.log[i].Apply? && p.log[i].created
      ensures Key(p.log[i].ns, p.log[i].name) !in p.helpers
    {
      OneNodeIsRecorded(p.log, job.name, node, i, p.namesBefore);
    }
  }

  /** On two nodes it is not: the helper of the kind's earlier node survives. */
  lemma CleanupLeavesOtherNodes(p: Process, job: Job, o: Outcome, w: World, i: nat, j: nat)
    requires p.Orderly(job) && p.Accounted(o, w)
    requires i < |p.log| && p.log[i].Apply? && p.log[i].created
    requires j < |p.log| && p.log[j].Apply? && p.log[j].kind == p.log[i].kind && p.log[j].node != p.log[i].node
    requires forall l :: j < l < |p.log| && p.log[l].Apply? ==> p.log[l].kind != p.log[j].kind
    ensures Key(p.log[i].ns, p.log[i].name) in p.helpers
  {
    var kind := p.log[i].kind;
    LastApplyIsRecorded(p.log, j, p.namesBefore);
    if p.log[i].name == p.log[j].name {
      NameDetermines(kind, p.log[i].node, kind, p.log[j].node, job.name);
    }
  }

  lemma {:induction false} LastApplyIsRecorded(log: seq<Op>, j: nat, before: Globals)
    requires j < |log| && log[j].Apply?
    requires forall l :: j < l < |log| && log[l].Apply? ==> log[l].kind != log[j].kind
    ensures NameOf(Names(before, log), log[j].kind) == log[j].name
  {
    if j < |log| - 1 {
      LastApplyIsRecorded(log[..|log| - 1], j, before);
    }
  }

  // ---- two runs at once ---------------------------------------------------------------------------

  /** One call of an interleaving, and whether it is the first run's. */
  datatype Tagged = Tagged(first: bool, op: Op)

  function Untag(s: seq<Tagged>): seq<Op> {
    if s == [] then [] else Untag(s[..|s| - 1]) + [s[|s| - 1].op]
  }

  /** The calls of one of the runs, in its own order. */
  function Only(s: seq<Tagged>, first: bool): seq<Op> {
    if s == [] then [] else
    var last := s[|s| - 1];
    Only(s[..|s| - 1], first) + if last.first == first then [last.op] else []
  }

  predicate Touches(op: Op, at: Key) {
    (op.Apply? || op.Delete?) && Key(op.ns, op.name) == at
  }

  /** Whatever the interleaving, a helper that the other run's calls do not touch
      is there afterwards if and only if it would be had the run been alone. */
  lemma {:induction false} RunsDoNotInterfere(before: set<Key>, s: seq<Tagged>, first: bool, at: Key)
    requires forall i :: 0 <= i < |s| && s[i].first != first ==> !Touches(s[i].op, at)
    ensures at in Helpers(before, Untag(s)) <==> at in Helpers(before, Only(s, first))
  {
    if s != [] {
      var n := |s| - 1;
      var rest, op := s[..n], s[n].op;
      RunsDoNotInterfere(before, rest, first, at);
      StoresAppend(before, {}, Untag(rest), op);
      StoresAppend(before, {}, Only(rest, first), op);
      StepIsLocal(Helpers(before, Untag(rest)), Helpers(before, Only(rest, first)), op, at);
      assert s[n].first != first ==> !Touches(op, at) && Only(s, first) == Only(rest, first);
    }
  }

  lemma StepIsLocal(h: set<Key>, h': set<Key>, op: Op, at: Key)
    requires at in h <==> at in h'
    ensures at in HelpersStep(h, op) <==> at in HelpersStep(h', op)
    ensures !Touches(op, at) ==> (at in HelpersStep(h, op) <==> at in h)
  {
  }

  /** The run of p as the contract of Do describes it, on every exit path. */
  ghost predicate RunOf(p: Process, job: Job)
    reads p
  {
    && p.Orderly(job) && p.Named() && WellKinded(p.deployName)
    && forall l :: 0 <= l < |p.log| && p.log[l].Delete? ==> p.log[l].name in AllNames(p.deployName)
  }

  /** And a run touches the name of another run's helper only through a helper of
      its own of the same kind whose node, dash and Backup name read the same: its
      cleanup deletes no other name, but for one that an earlier run of the same
      process has left in the global. */
  lemma TouchesOnlyCollisions(p: Process, job: Job, at: nat, kind: Kind, node: string, backup: string) returns (i: nat)
    requires RunOf(p, job) && NameOf(p.namesBefore, kind) != DeployName(kind, node, backup)
    requires at < |p.log| && Touches(p.log[at], Key(p.operatorNs, DeployName(kind, node, backup)))
    ensures i < |p.log| && p.log[i].Apply? && p.log[i].kind == kind
    ensures p.log[i].node + "-" + job.name == node + "-" + backup
  {
    var name := DeployName(kind, node, backup);
    NameIsOfKind(kind, node, backup);
    if p.log[at].Apply? {
      i := at;
    } else {
      OnlyItsOwnKind(p.deployName, kind, name);
      i := RecordedWasApplied(p.namesBefore, p.log, kind);
    }
    NamesCollide(p.log[i].kind, p.log[i].node, job.name, kind, node, backup);
  }

  /** Non-interference.  Two runs in two processes share the operator namespace
      and interleave in any way.  A helper of one run that no helper of the other
      collides with, nor a name left over in the other's process (there is none in
      a fresh one), is at every moment there if and only if it would be there at
      that moment had its run been alone. */
  lemma ConcurrentRunsAreIndependent(before: set<Key>, s: seq<Tagged>, first: bool, p: Process, job: Job,
                                     p': Process, job': Job, i: nat, k: nat)
    requires RunOf(p, job) && RunOf(p', job') && p.operatorNs == p'.operatorNs
    requires Only(s, first) == p.log && Only(s, !first) == p'.log && k <= |s|
    requires i < |p.log| && p.log[i].Apply? && NameOf(p'.namesBefore, p.log[i].kind) != p.log[i].name
    requires forall l :: 0 <= l < |p'.log| && p'.log[l].Apply? && p'.log[l].kind == p.log[i].kind ==>
                           p'.log[l].node + "-" + job'.name != p.log[i].node + "-" + job.name
    ensures var at := Key(p.log[i].ns, p.log[i].name);
            at in Helpers(before, Untag(s[..k])) <==> at in Helpers(before, Only(s[..k], first))
  {
    var op := p.log[i];
    assert Fits(op, job, p.operatorNs);
    forall l | 0 <= l < |s| && s[l].first != first
      ensures !Touches(s[l].op, Key(op.ns, op.name))
    {
      var at := PositionInOnly(s, !first, l);
      if Touches(s[l].op, Key(op.ns, op.name)) {
        var c := TouchesOnlyCollisions(p', job', at, op.kind, op.node, job.name);
        assert false;
      }
    }
    RunsDoNotInterfere(before, s[..k], first, Key(op.ns, op.name));
  }

  lemma {:induction false} PositionInOnly(s: seq<Tagged>, first: bool, l: nat) returns (at: nat)
    requires l < |s| && s[l].first == first
    ensures at < |Only(s, first)| && Only(s, first)[at] == s[l].op
  {
    var n := |s| - 1;
    if l == n {
      at := |Only(s[..n], first)|;
    } else {
      at := PositionInOnly(s[..n], first, l);
    }
  }

  function Tag(log: seq<Op>, first: bool): seq<Tagged> {
    seq(|log|, i requires 0 <= i < |log| => Tagged(first, log[i]))
  }

  lemma {:induction false} TaggedAlone(log: seq<Op>, first: bool)
    ensures Untag(Tag(log, first)) == log
    ensures Only(Tag(log, first), first) == log && Only(Tag(log, first), !first) == []
  {
    if log != [] {
      var n := |log| - 1;
      assert Tag(log, first)[..n] == Tag(log[..n], first);
      TaggedAlone(log[..n], first);
    }
  }

  lemma {:induction false} TagsSplit(s: seq<Tagged>, t: seq<Tagged>)
    ensures Untag(s + t) == Untag(s) + Untag(t)
    ensures forall first :: Only(s + t, first) == Only(s, first) + Only(t, first)
  {
    if t == [] {
      assert s + t == s;
    } else {
      var n := |t| - 1;
      assert (s + t)[..|s + t| - 1] == s + t[..n];
      TagsSplit(s, t[..n]);
    }
  }

  /** The whole second run happens right after call i of the first. */
  function Squeeze(log: seq<Op>, i: nat, log': seq<Op>): seq<Tagged>
    requires i < |log|
  {
    Tag(log[..i + 1], true) + Tag(log', false) + Tag(log[i + 1..], true)
  }

  lemma SqueezeMeans(log: seq<Op>, i: nat, log': seq<Op>, d: nat)
    requires i < |log| && d <= |log'|
    ensures var s, k := Squeeze(log, i, log'), i + 1 + d;
            && Only(s, true) == log && Only(s, false) == log' && k <= |s|
            && Untag(s[..k]) == log[..i + 1] + log'[..d] && Only(s[..k], true) == log[..i + 1]
  {
    hide Untag, Only;
    var a, b, c := Tag(log[..i + 1], true), Tag(log', false), Tag(log[i + 1..], true);
    TaggedAlone(log[..i + 1], true);
    TaggedAlone(log', false);
    TaggedAlone(log[i + 1..], true);
    TagsSplit(a, b);
    TagsSplit(a + b, c);
    assert log == log[..i + 1] + log[i + 1..];
    assert Squeeze(log, i, log')[..i + 1 + d] == a + Tag(log'[..d], false);
    TaggedAlone(log'[..d], false);
    TagsSplit(a, Tag(log'[..d], false));
  }

  lemma DeletedLast(before: set<Key>, log: seq<Op>)
    requires log != [] && log[|log| - 1].Delete? && log[|log| - 1].ok
    ensures var op := log[|log| - 1]; Key(op.ns, op.name) !in Helpers(before, log)
  {
  }

  /** The premise is needed, whatever the namespaces of the Backups.  Let the last
      helper of its kind in a run that reaches its cleanup collide with a helper
      that another run creates, and let deletions work.  Then the two whole runs
      interleave so that at some moment the other run's helper is gone, although
      that run, had it been alone, would have it. */
  lemma CollidingRunsInterfere(before: set<Key>, p: Process, job: Job, p': Process, job': Job, w': World,
                               i: nat, l: nat)
    returns (s: seq<Tagged>, k: nat)
    requires p.Orderly(job) && p'.Orderly(job') && p'.Named() && p.operatorNs == p'.operatorNs
    requires i < |p.log| && p.log[i].Apply? && p.log[i].created
    requires l < |p'.log| && p'.log[l].Apply? && p'.log[l].kind == p.log[i].kind
    requires forall x :: l < x < |p'.log| && p'.log[x].Apply? ==> p'.log[x].kind != p'.log[l].kind
    requires p'.log[l].node + "-" + job'.name == p.log[i].node + "-" + job.name
    requires p'.DeletesAll(AllNames(p'.deployName), w') && w'.deletes(p.log[i].name)
    ensures Only(s, true) == p.log && Only(s, false) == p'.log && k <= |s|
    ensures var at := Key(p.log[i].ns, p.log[i].name);
            at !in Helpers(before, Untag(s[..k])) && at in Helpers(before, Only(s[..k], true))
  {
    hide AllNames, DeployName, Squeeze, Helpers;
    var d := CleanupDeletes(p, job, p', job', w', i, l);
    s, k := Squeeze(p.log, i, p'.log), i + 1 + (d + 1);
    SqueezeMeans(p.log, i, p'.log, d + 1);
    DeletedLast(before, p.log[..i + 1] + p'.log[..d + 1]);
    StaysCreated(before, p.log[..i + 1], i);
  }

  lemma CleanupDeletes(p: Process, job: Job, p': Process, job': Job, w': World, i: nat, l: nat) returns (d: nat)
    requires p.Orderly(job) && p'.Orderly(job') && p'.Named() && p.operatorNs == p'.operatorNs
    requires i < |p.log| && p.log[i].Apply?
    requires l < |p'.log| && p'.log[l].Apply? && p'.log[l].kind == p.log[i].kind
    requires forall x :: l < x < |p'.log| && p'.log[x].Apply? ==> p'.log[x].kind != p'.log[l].kind
    requires p'.log[l].node + "-" + job'.name == p.log[i].node + "-" + job.name
    requires p'.DeletesAll(AllNames(p'.deployName), w') && w'.deletes(p.log[i].name)
    ensures d < |p'.log| && p'.log[d] == Delete(p.log[i].ns, p.log[i].name, true)
  {
    hide DeployName, Helpers;
    var op, op' := p.log[i], p'.log[l];
    assert Fits(op, job, p.operatorNs) && Fits(op', job', p'.operatorNs);
    NamesCollide(op.kind, op.node, job.name, op'.kind, op'.node, job'.name);
    LastApplyIsRecorded(p'.log, l, p'.namesBefore);
    assert op.name in AllNames(p'.deployName);
    var gone := Delete(p'.operatorNs, op.name, true);
    assert gone in p'.log;
    d :| d < |p'.log| && p'.log[d] == gone;
  }

  lemma {:induction false} RecordedWasApplied(before: Globals, log: seq<Op>, kind: Kind) returns (i: nat)
    requires NameOf(Names(before, log), kind) != NameOf(before, kind)
    ensures i < |log| && log[i].Apply? && log[i].kind == kind && log[i].name == NameOf(Names(before, log), kind)
  {
    var last := log[|log| - 1];
    if last.Apply? && last.kind == kind {
      i := |log| - 1;
    } else {
      i := RecordedWasApplied(before, log[..|log| - 1], kind);
    }
  }
}

/** One process of horusctl: the package globals, the shared handlers, and Do. */
module BackupRun {
  import opened Cluster
  import opened HelperNames
  import opened Retry
  import opened RunLog
  import M = PvcMap

  // ---- inputs ---------------------------------------------------------------------

  datatype Resource = PodResource | DeploymentResource | StatefulSetResource | DaemonSetResource | OtherResource

  datatype JobSpec = JobSpec(target: string, resource: Resource, to: set<Storage>)

  const NO_SPEC := JobSpec("", OtherResource, {})

  datatype Job = Job(ns: string, name: string, spec: JobSpec)

  /** What precedes the helper of a storage other than nfs: its secret is read,
      and its bucket or directory is made. */
  datatype Preparation = Prepared | NoSecret | NotMade

  /** The answers during the backup of one claim to one storage.  The checks are
      what restic would like to say; see Execute for what it can say. */
  datatype Attempt = Attempt(
    ready: bool, preparation: Preparation, helper: M.HelperReply, check: bool, init: bool, backup: bool)

  /** All answers of the outside during one run, and which of this Backup's
      repositories are initialised when it starts.  A pair of storage and claim is
      attempted at most once, a claim of a pod looked up and searched once. */
  datatype World = World(
    backup: Result<JobSpec>, listed: bool, answers: M.Answers, initialised: set<Storage>,
    attempt: (Storage, string) -> Attempt, deletes: string -> bool)

  datatype Outcome = Succeeded | Errored | Crashed | Exited

  // ---- process state ----------------------------------------------------------------

  /** The namespace each shared handler points to. */
  datatype Handlers = Handlers(pod: string, dep: string, rs: string, sts: string, ds: string, pvc: string, sec: string)

  /** Where a volume is found under the helper's mount of the node's root. */
  const HOST_ROOT := "/host-root"

  function Join(a: string, b: string): string {
    a + "/" + b
  }

  /** For hostPath and local volumes the directory is the volume itself. */
  function VolumePath(meta: M.Meta): string {
    if M.SelfLocated(meta) then Join(HOST_ROOT, meta.pvdir)
    else Join(Join(HOST_ROOT, meta.pvdir), meta.pvname)
  }

  /** A backup is aimed at an entry: at its path, from a helper on its node, and
      the entry has both a directory and a volume name. */
  predicate Aimed(op: Op, meta: M.Meta)
    requires op.Restic?
  {
    op.path == VolumePath(meta) && op.pod.node == meta.nodeName && meta.pvdir != "" && meta.pvname != ""
  }

  ghost predicate AllAimed(backups: seq<Op>, m: M.PvcpvMap) {
    forall op | op in backups :: op.Restic? && op.pvc in m && Aimed(op, m[op.pvc])
  }

  /** Backups grew by at most one call, for this pair and aimed at this entry,
      and the attempt succeeded exactly if that call is there and succeeded. */
  ghost predicate Attempted(before: seq<Op>, after: seq<Op>, storage: Storage, pvc: string, meta: M.Meta, o: Outcome) {
    || (after == before && o != Succeeded)
    || (|after| == |before| + 1 && before <= after &&
        var op := after[|before|];
        op.Restic? && op.storage == storage && op.pvc == pvc && Aimed(op, meta) && (op.ok <==> o == Succeeded))
  }

  /** When an attempt succeeds: it takes a supported storage, a located volume and
      the right answers.  A check succeeds on an initialised repository only, an
      initialisation on an uninitialised one only. */
  predicate Succeeds(storage: Storage, meta: M.Meta, a: Attempt, initialised: bool) {
    && Supported(storage)
    && a.ready && (storage.Nfs? || a.preparation.Prepared?) && M.HasServingPod(a.helper)
    && meta.pvdir != "" && meta.pvname != ""
    && (if initialised then a.check else a.init)
    && a.backup
  }

  /** Storages without a helper fail at the first use of the missing pod, unless
      one of the guards before that use stops them. */
  predicate Crashes(storage: Storage, meta: M.Meta, a: Attempt) {
    storage in {CephFs, S3, Rclone, RestServer} && a.ready && meta.pvdir != "" && meta.pvname != ""
  }

  /** A MinIO bucket that cannot be made ends the process on the spot. */
  predicate Exits(storage: Storage, a: Attempt) {
    storage.MinIO? && a.ready && a.preparation.NotMade?
  }

  /** How an attempt ends. */
  function Verdict(resource: Resource, storage: Storage, meta: M.Meta, a: Attempt, initialised: bool): Outcome {
    if resource.OtherResource? then Errored
    else if Succeeds(storage, meta, a, initialised) then Succeeded
    else if Crashes(storage, meta, a) then Crashed
    else if Exits(storage, a) then Exited
    else Errored
  }

  /** What an attempt does to the repositories. */
  predicate Grown(before: set<Storage>, after: set<Storage>, storage: Storage, o: Outcome) {
    before <= after <= before + {storage} && (o == Succeeded ==> storage in after)
  }

  /** A call in its proper namespace; a helper with its proper name. */
  predicate Fits(op: Op, job: Job, operatorNs: string) {
    && Disciplined(op, job.ns, operatorNs)
    && (op.Apply? ==> op.name == DeployName(op.kind, op.node, job.name))
  }

  /** There is a kind of helper for it. */
  predicate Supported(storage: Storage)
    ensures Supported(storage) <==> storage in {Nfs, MinIO, Sftp}
  {
    BackupKind(storage).Some?
  }

  /** Where the map has a directory that was searched for, the search ran on the
      entry's node, for the entry's pod and volume source. */
  ghost predicate Searched(log: seq<Op>, m: M.PvcpvMap) {
    forall pvc | pvc in m :: m[pvc].pvdir != "" && !M.SelfLocated(m[pvc]) ==> Asked(log, m[pvc])
  }

  ghost predicate Asked(log: seq<Op>, meta: M.Meta) {
    exists x :: 0 <= x < |log| && Asks(log[x], meta)
  }

  predicate Asks(op: Op, meta: M.Meta) {
    op.Find? && op.pod.node == meta.nodeName && op.uid == meta.podUID && op.source == meta.volumeSource
  }

  lemma SearchedLater(log: seq<Op>, log': seq<Op>, m: M.PvcpvMap)
    requires Searched(log, m) && log <= log'
    ensures Searched(log', m)
  {
    forall pvc | pvc in m && m[pvc].pvdir != "" && !M.SelfLocated(m[pvc])
      ensures Asked(log', m[pvc])
    {
      var x :| 0 <= x < |log| && Asks(log[x], m[pvc]);
      assert log'[x] == log[x];
    }
  }

  lemma SearchedFirstLater(log: seq<Op>, log': seq<Op>, m: M.PvcpvMap)
    requires SearchedFirst(log, m) && log <= log'
    ensures SearchedFirst(log', m)
  {
    var n :| 0 <= n <= |log| && Backups(log[..n]) == [] && Searched(log[..n], m);
    assert log'[..n] == log[..n];
  }

  lemma NothingSearched(log: seq<Op>, a: M.Answers)
    ensures Searched(log, map[]) && M.Trace(a, 0) == Ok([]) && M.Fold([]) == map[]
  {
  }

  lemma SearchedUpdate(log: seq<Op>, m: M.PvcpvMap, pvc: string, meta: M.Meta)
    requires Searched(log, m) && (meta.pvdir != "" && !M.SelfLocated(meta) ==> Asked(log, meta))
    ensures Searched(log, m[pvc := meta])
  {
  }

  /** All searches for the map come before the first backup. */
  ghost predicate SearchedFirst(log: seq<Op>, m: M.PvcpvMap) {
    exists n :: 0 <= n <= |log| && Backups(log[..n]) == [] && Searched(log[..n], m)
  }

  datatype PodResult = Got(pod: ExecPod) | Failed(outcome: Outcome)

  class Process {
    const operatorNs: string
    var handlers: Handlers
    var deployName: Globals
    var helpers: set<Key>
    var repositories: set<Storage> // of the Backup of the current run

    // The current run: its calls, and what it found when it started.
    ghost var log: seq<Op>
    ghost var helpersBefore: set<Key>
    ghost var repositoriesBefore: set<Storage>
    ghost var namesBefore: Globals

    /** The stores are what the calls made of them. */
    ghost predicate Consistent()
      reads this
    {
      && helpers == Helpers(helpersBefore, log)
      && repositories == Repositories(repositoriesBefore, log)
      && Protocol(repositoriesBefore, log)
      && AllServed(log)
    }

    /** The globals hold the names of the last helpers. */
    ghost predicate Named()
      reads this
    {
      deployName == Names(namesBefore, log)
    }

    /** Every call of the run is in its proper namespace, and every helper has the
        name that its kind, its node and the Backup give it. */
    ghost predicate Orderly(job: Job)
      reads this
    {
      forall i :: 0 <= i < |log| ==> Fits(log[i], job, operatorNs)
    }

    ghost predicate Running(job: Job)
      reads this
    {
      Consistent() && Named() && Orderly(job) && DeletesNothing(log)
    }

    /** More calls, but neither a backup nor an initialisation. */
    twostate predicate Aside()
      reads this
    {
      old(log) <= log && Backups(log) == old(Backups(log)) && repositories == old(repositories)
    }

    /** The current helper serves in this pod and is of the storage's kind. */
    ghost predicate AtPost(storage: Storage, pod: ExecPod)
      reads this
    {
      var current := CurrentHelper(log);
      current.Serves? && BackupKind(storage) == Some(current.kind) && current.pod == pod
    }

    constructor (operator: string, existing: set<Key>)
      ensures Consistent() && Named() && WellKinded(deployName) && log == [] && deployName == NO_NAMES
      ensures helpers == existing
      ensures operatorNs == operator
    {
      operatorNs := operator;
      handlers := Handlers("", "", "", "", "", "", "");
      deployName := NO_NAMES;
      namesBefore := NO_NAMES;
      helpers, repositories, helpersBefore, repositoriesBefore, log := existing, {}, existing, {}, [];
    }

    /** Issues one call.  It is here that a backup needs its repository and that
        an initialisation must not hit an existing one, and that a command needs
        the pod of a helper of its kind. */
    method Send(op: Op)
      requires Consistent() && Served(op, CurrentHelper(log))
      requires op.Restic? ==> op.storage in repositories
      requires op.Init? && op.ok ==> op.storage !in repositories
      modifies this`log, this`helpers, this`repositories
      ensures log == old(log) + [op] && Consistent()
      ensures Backups(log) == old(Backups(log)) + if op.Restic? then [op] else []
      ensures Names(namesBefore, log) == NamesStep(old(Names(namesBefore, log)), op)
      ensures CurrentHelper(log) == CurrentStep(old(CurrentHelper(log)), op)
      ensures helpers == HelpersStep(old(helpers), op) && repositories == RepositoriesStep(old(repositories), op)
    {
      StoresAppend(helpersBefore, repositoriesBefore, log, op);
      ProtocolAppend(repositoriesBefore, log, op);
      LogAppend(namesBefore, log, op);
      ServedAppend(log, op);
      log := log + [op];
      helpers := HelpersStep(helpers, op);
      repositories := RepositoriesStep(repositories, op);
    }

    /** Send during a run: the run stays orderly.  A helper's name is in its global
        when the helper is applied. */
    method Issue(job: Job, op: Op)
      requires Consistent() && Orderly(job) && DeletesNothing(log) && Fits(op, job, operatorNs) && !op.Delete?
      requires op.Restic? ==> op.storage in repositories
      requires op.Init? && op.ok ==> op.storage !in repositories
      requires Served(op, CurrentHelper(log))
      requires deployName == NamesStep(Names(namesBefore, log), op)
      modifies this`log, this`helpers, this`repositories
      ensures Running(job) && Backups(log) == old(Backups(log)) + if op.Restic? then [op] else []
      ensures log == old(log) + [op] && CurrentHelper(log) == CurrentStep(old(CurrentHelper(log)), op)
      ensures repositories == RepositoriesStep(old(repositories), op)
    {
      hide Helpers, Repositories, Protocol, Names, Backups, CurrentHelper, AllServed;
      Send(op);
      assert forall i :: 0 <= i < |log| ==> log[i] == if i < |old(log)| then old(log)[i] else op;
    }

    /** Issue for calls that concern neither helpers, repositories nor backups. */
    method Ask(job: Job, op: Op)
      requires Running(job) && Fits(op, job, operatorNs) && Served(op, CurrentHelper(log))
      requires !op.Apply? && !op.Restic? && !op.Delete? && !op.Init?
      modifies this`log, this`helpers, this`repositories
      ensures Running(job) && Aside()
      ensures log == old(log) + [op] && CurrentHelper(log) == CurrentStep(old(CurrentHelper(log)), op)
    {
      hide Helpers, Repositories, Protocol, Names, Backups, CurrentHelper, AllServed;
      Issue(job, op);
    }

    // ---- helpers -----------------------------------------------------------------------

    method ApplyHelper(job: Job, kind: Kind, name: string, node: string, created: bool)
      requires Consistent() && Orderly(job) && DeletesNothing(log) && handlers.dep == operatorNs
      requires deployName == Record(Names(namesBefore, log), kind, name) && name == DeployName(kind, node, job.name)
      modifies this`log, this`helpers, this`repositories
      ensures Running(job) && Aside()
      ensures created ==> CurrentHelper(log) == Applied(kind, name, node)
    {
      hide Helpers, Repositories, Protocol, Names, Backups, CurrentHelper, AllServed;
      Issue(job, Apply(handlers.dep, kind, name, node, created));
    }

    /** filterRunningPod: applies the helper and picks its first serving pod.  The
        pods of a Deployment run on the node it names. */
    method FilterRunningPod(job: Job, kind: Kind, name: string, node: string, reply: M.HelperReply)
      returns (r: PodResult)
      requires Consistent() && Orderly(job) && DeletesNothing(log)
      requires deployName == Record(Names(namesBefore, log), kind, name) && name == DeployName(kind, node, job.name)
      modifies this`log, this`helpers, this`repositories, this`handlers
      ensures Running(job) && Aside()
      ensures handlers == old(handlers).(dep := operatorNs, rs := operatorNs, pod := operatorNs)
      ensures r.Got? <==> M.HasServingPod(reply)
      ensures r == if r.Got? then Got(ExecPod(r.pod.name, node)) else Failed(Errored)
      ensures r.Got? ==> CurrentHelper(log) == Serves(kind, DeployName(kind, node, job.name), r.pod)
    {
      hide Helpers, Repositories, Protocol, Names, Backups, CurrentHelper, AllServed, DeployName;
      handlers := handlers.(dep := operatorNs, rs := operatorNs, pod := operatorNs);
      ApplyHelper(job, kind, name, node, reply.ApplyFailed? ==> reply.created);
      if reply.ApplyFailed? { return Failed(Errored); }
      Ask(job, HelperQuery(handlers.dep, name));
      if reply.NotReady? { return Failed(Errored); }
      Ask(job, if reply.Pods? then HelperPods(handlers.dep, name, reply.pods) else HelperQuery(handlers.dep, name));
      if reply.NoPodList? { return Failed(Errored); }
      var pod := FirstServing(reply.pods);
      return if pod.Some? then Got(ExecPod(pod.value.name, node)) else Failed(Errored);
    }

    static method FirstServing(pods: seq<HelperPod>) returns (r: Option<HelperPod>)
      ensures r.Some? ==> exists i :: 0 <= i < |pods| && r.value == pods[i] && !pods[i].terminating && pods[i].running
                                      && forall j :: 0 <= j < i ==> pods[j].terminating || !pods[j].running
      ensures r.None? ==> forall i :: 0 <= i < |pods| ==> pods[i].terminating || !pods[i].running
      ensures r == FirstPod(pods)
    {
      for i := 0 to |pods|
        invariant forall j :: 0 <= j < i ==> !Serving(pods[j])
      {
        var pod := pods[i];
        if pod.terminating { continue; }
        if !pod.running { continue; }
        FirstPodIsFirst(pods, i);
        return Some(pod);
      }
      FirstPodIsFirst(pods, |pods|);
      return None;
    }

    /** Every kind of helper records its name in its global and then applies it. */
    method CreateHelper(job: Job, kind: Kind, node: string, reply: M.HelperReply) returns (r: PodResult)
      requires Running(job)
      modifies this`log, this`helpers, this`repositories, this`handlers, this`deployName
      ensures Running(job) && Aside()
      ensures handlers == old(handlers).(dep := operatorNs, rs := operatorNs, pod := operatorNs)
      ensures r.Got? <==> M.HasServingPod(reply)
      ensures r == if r.Got? then Got(ExecPod(r.pod.name, node)) else Failed(Errored)
      ensures r.Got? ==> CurrentHelper(log) == Serves(kind, DeployName(kind, node, job.name), r.pod)
    {
      var name := DeployName(kind, node, job.name);
      deployName := Record(deployName, kind, name);
      r := FilterRunningPod(job, kind, name, node, reply);
    }

    /** createFindpvdirDeployment. */
    method CreateFindpvdir(job: Job, meta: M.Meta, search: M.Search) returns (r: Result<string>)
      requires Running(job)
      modifies this`log, this`helpers, this`repositories, this`handlers, this`deployName
      ensures Running(job) && Aside()
      ensures handlers.pvc == old(handlers).pvc
      ensures r == M.Directory(search, meta)
      ensures r.Ok? && !M.SelfLocated(meta) ==> Asked(log, meta)
    {
      hide Helpers, Repositories, Protocol, Names, Backups, CurrentHelper, AllServed;
      handlers := handlers.(pod := operatorNs);
      var exec := CreateHelper(job, Findpvdir, meta.nodeName, search.helper);
      if exec.Failed? { return Err; }
      if meta.volumeSource == M.VOLUME_HOST_PATH || meta.volumeSource == M.VOLUME_LOCAL {
        return search.pvPath(meta.pvname);
      }
      Ask(job, Find(handlers.pod, exec.pod, meta.podUID, meta.volumeSource));
      assert Asks(log[|log| - 1], meta);
      r := FindDirectory(search.output(M.Query(exec.pod.node, meta.podUID, meta.volumeSource)));
    }

    // ---- the map ---------------------------------------------------------------------------

    /** The first loop over the claims of pod i. */
    method ResolveClaims(job: Job, a: M.Answers, i: nat, m: M.PvcpvMap, ghost t: seq<M.Event>) returns (m': M.PvcpvMap)
      requires Running(job) && handlers.pvc == job.ns
      requires i < |a.pods| && M.GoodPod(a.pods[i]) && m == M.Fold(t) && Searched(log, m)
      modifies this`log, this`helpers, this`repositories
      ensures Running(job) && Aside()
      ensures Searched(log, m') && m' == M.Fold(t + M.Lookups(a, i, |a.pods[i].claims.value|))
    {
      hide Helpers, Repositories, Protocol, Names, Backups, CurrentHelper, AllServed, Searched, M.Lookups, M.Fold;
      m' := m;
      var n := |a.pods[i].claims.value|;
      M.LoopsStart(t, a, i);
      for j := 0 to n
        invariant Running(job) && Aside()
        invariant Searched(log, m') && m' == M.Fold(t + M.Lookups(a, i, j))
      {
        m' := ResolveClaim(job, a, i, j, m', t);
      }
    }

    /** One round of the first loop. */
    method ResolveClaim(job: Job, a: M.Answers, i: nat, j: nat, m: M.PvcpvMap, ghost t: seq<M.Event>)
      returns (m': M.PvcpvMap)
      requires Running(job) && handlers.pvc == job.ns
      requires i < |a.pods| && M.GoodPod(a.pods[i]) && j < |a.pods[i].claims.value|
      requires m == M.Fold(t + M.Lookups(a, i, j)) && Searched(log, m)
      modifies this`log, this`helpers, this`repositories
      ensures Running(job) && Aside()
      ensures Searched(log, m') && m' == M.Fold(t + M.Lookups(a, i, j + 1))
    {
      hide Helpers, Repositories, Protocol, Names, Backups, CurrentHelper, AllServed, Searched, M.Fold;
      M.FoldAppend(t + M.Lookups(a, i, j), M.LookupEvent(a, i, j));
      assert t + M.Lookups(a, i, j + 1) == t + M.Lookups(a, i, j) + [M.LookupEvent(a, i, j)];
      Ask(job, UserLookup(handlers.pvc));
      SearchedLater(old(log), log, m);
      var pod, pvc := a.pods[i], a.pods[i].claims.value[j];
      var pv := a.lookup(i, j).pv(pvc);
      if pv.Err? { return m; }
      var source := a.lookup(i, j).source(pv.value);
      if source.Err? { return m; }
      var meta := M.Meta(source.value, pod.node.value, pod.name, pod.uid.value, "", pv.value);
      SearchedUpdate(log, m, pvc, meta);
      return m[pvc := meta];
    }

    /** One round of the second loop. */
    method SearchClaim(job: Job, a: M.Answers, i: nat, j: nat, m: M.PvcpvMap, ghost t: seq<M.Event>)
      returns (r: Result<M.PvcpvMap>)
      requires Running(job) && handlers.pvc == job.ns
      requires i < |a.pods| && M.GoodPod(a.pods[i]) && j < |a.pods[i].claims.value|
      requires M.Searches(t, a, i, j).Ok? && m == M.Fold(M.Searches(t, a, i, j).value) && Searched(log, m)
      modifies this`log, this`helpers, this`repositories, this`handlers, this`deployName
      ensures Running(job) && Aside() && handlers.pvc == job.ns
      ensures r.Ok? ==> Searched(log, r.value)
      ensures var s := M.Searches(t, a, i, j + 1); r == if s.Err? then Err else Ok(M.Fold(s.value))
    {
      hide Helpers, Repositories, Protocol, Names, Backups, CurrentHelper, AllServed, Searched;
      var pvc := a.pods[i].claims.value[j];
      var meta := M.Entry(m, pvc);
      var dir := CreateFindpvdir(job, meta, a.search(i, j));
      SearchedLater(old(log), log, m);
      if dir.Err? { return Err; }
      M.FoldAppend(M.Searches(t, a, i, j).value, M.Searched(pvc, dir.value));
      if |dir.value| == 0 { return Ok(m); }
      var found := meta.(pvdir := dir.value);
      SearchedUpdate(log, m, pvc, found);
      return Ok(m[pvc := found]);
    }

    /** The second loop over the claims of pod i. */
    method SearchClaims(job: Job, a: M.Answers, i: nat, m: M.PvcpvMap, ghost t: seq<M.Event>)
      returns (r: Result<M.PvcpvMap>)
      requires Running(job) && handlers.pvc == job.ns
      requires i < |a.pods| && M.GoodPod(a.pods[i]) && m == M.Fold(t) && Searched(log, m)
      modifies this`log, this`helpers, this`repositories, this`handlers, this`deployName
      ensures Running(job) && Aside() && handlers.pvc == job.ns
      ensures r.Ok? ==> Searched(log, r.value)
      ensures var s := M.Searches(t, a, i, |a.pods[i].claims.value|);
              r == if s.Err? then Err else Ok(M.Fold(s.value))
    {
      hide Helpers, Repositories, Protocol, Names, Backups, CurrentHelper, AllServed, Searched, M.Searches, M.Fold;
      r := Ok(m);
      M.LoopsStart(t, a, i);
      var n := |a.pods[i].claims.value|;
      for j := 0 to n
        invariant Running(job) && Aside() && handlers.pvc == job.ns
        invariant r.Ok? && Searched(log, r.value)
        invariant M.Searches(t, a, i, j).Ok? && r == Ok(M.Fold(M.Searches(t, a, i, j).value))
      {
        r := SearchClaim(job, a, i, j, r.value, t);
        if r.Err? {
          SearchFailed(t, a, i, j, n);
          return;
        }
      }
    }

    static lemma {:induction false} SearchFailed(t: seq<M.Event>, a: M.Answers, i: nat, j: nat, n: nat)
      requires i < |a.pods| && M.GoodPod(a.pods[i]) && j < n <= |a.pods[i].claims.value|
      requires M.Searches(t, a, i, j + 1).Err?
      ensures M.Searches(t, a, i, n).Err?
      decreases n
    {
      hide M.Directory, M.Fold;
      if j + 1 < n { SearchFailed(t, a, i, j, n - 1); }
    }

    static lemma {:induction false} TraceFailed(a: M.Answers, i: nat, n: nat)
      requires i < n <= |a.pods| && M.Trace(a, i + 1).Err?
      ensures M.Trace(a, n).Err?
      decreases n
    {
      if i + 1 < n { TraceFailed(a, i, n - 1); }
    }

    /** The handlers are pointed at the Backup's namespace and the pods listed. */
    method ListPods(job: Job, w: World) returns (ok: bool)
      requires Running(job)
      modifies this`log, this`helpers, this`repositories, this`handlers
      ensures Running(job) && Aside() && handlers.pvc == job.ns
      ensures ok <==> !job.spec.resource.OtherResource? && w.listed
    {
      var ns := job.ns;
      handlers := handlers.(pod := ns, dep := ns, rs := ns, sts := ns, ds := ns, pvc := ns);
      match job.spec.resource {
        case PodResource => Ask(job, UserLookup(handlers.pod));
        case DeploymentResource => Ask(job, UserLookup(handlers.dep));
        case StatefulSetResource => Ask(job, UserLookup(handlers.sts));
        case DaemonSetResource => Ask(job, UserLookup(handlers.ds));
        case OtherResource => return false;
      }
      return w.listed;
    }

    /** One round of the loop over the pods. */
    method AddPod(job: Job, a: M.Answers, i: nat, m: M.PvcpvMap) returns (r: Result<M.PvcpvMap>)
      requires Running(job) && handlers.pvc == job.ns
      requires i < |a.pods| && M.Trace(a, i).Ok? && m == M.Fold(M.Trace(a, i).value) && Searched(log, m)
      modifies this`log, this`helpers, this`repositories, this`handlers, this`deployName
      ensures Running(job) && Aside() && handlers.pvc == job.ns
      ensures r.Ok? ==> Searched(log, r.value)
      ensures var t := M.Trace(a, i + 1); r == if t.Err? then Err else Ok(M.Fold(t.value))
    {
      hide Helpers, Repositories, Protocol, Names, Backups, CurrentHelper, AllServed, Searched;
      var pod := a.pods[i];
      if pod.node.Err? || pod.uid.Err? || pod.claims.Err? { return Err; }
      ghost var t := M.Trace(a, i).value;
      var m' := ResolveClaims(job, a, i, m, t);
      r := SearchClaims(job, a, i, m', t + M.Lookups(a, i, |pod.claims.value|));
    }

    method AddPods(job: Job, a: M.Answers) returns (r: Result<M.PvcpvMap>)
      requires Running(job) && handlers.pvc == job.ns
      modifies this`log, this`helpers, this`repositories, this`handlers, this`deployName
      ensures Running(job) && Aside()
      ensures r.Ok? ==> Searched(log, r.value)
      ensures var t := M.Trace(a, |a.pods|); r == if t.Err? then Err else Ok(M.Fold(t.value))
    {
      hide Helpers, Repositories, Protocol, Names, Backups, CurrentHelper, AllServed, Searched, M.Trace, M.Fold;
      r := Ok(map[]);
      NothingSearched(log, a);
      for i := 0 to |a.pods|
        invariant Running(job) && Aside() && handlers.pvc == job.ns
        invariant r.Ok? && Searched(log, r.value)
        invariant M.Trace(a, i).Ok? && r == Ok(M.Fold(M.Trace(a, i).value))
      {
        r := AddPod(job, a, i, r.value);
        if r.Err? {
          TraceFailed(a, i, |a.pods|);
          return;
        }
      }
    }

    /** constructPvcpvMap. */
    method ConstructPvcpvMap(job: Job, w: World) returns (r: Result<M.PvcpvMap>)
      requires Running(job)
      modifies this`log, this`helpers, this`repositories, this`handlers, this`deployName
      ensures Running(job) && Aside()
      ensures r.Ok? ==> Searched(log, r.value)
      ensures r == PvcpvMapOf(job.spec.resource, w)
    {
      hide Helpers, Repositories, Protocol, Names, Backups, CurrentHelper, AllServed, Searched;
      var listed := ListPods(job, w);
      if !listed { return Err; }
      r := AddPods(job, w.answers);
      if r.Err? { return; }
      if |r.value| == 0 { return Err; }
    }

    // ---- one backup -----------------------------------------------------------------------------

    /** executeBackupCommand.  Without a pod the first use of it is a nil
        dereference, after the two guards. */
    method Execute(job: Job, pod: Option<ExecPod>, storage: Storage, pvc: string, meta: M.Meta, a: Attempt)
      returns (o: Outcome)
      requires Running(job) && (pod.Some? ==> pod.value.node == meta.nodeName && AtPost(storage, pod.value))
      modifies this`log, this`helpers, this`repositories, this`handlers
      ensures Running(job) && Attempted(old(Backups(log)), Backups(log), storage, pvc, meta, o)
      ensures o == Succeeded <==>
              && pod.Some? && meta.pvdir != "" && meta.pvname != ""
              && (if storage in old(repositories) then a.check else a.init)
              && a.backup
      ensures o != Exited && (o == Crashed <==> pod.None? && meta.pvdir != "" && meta.pvname != "")
      ensures old(log) <= log && Grown(old(repositories), repositories, storage, o)
    {
      hide Helpers, Repositories, Protocol, Names, Backups, CurrentHelper, AllServed, Attempted, VolumePath;
      NotAttempted(Backups(log), storage, pvc, meta);
      if |meta.pvdir| == 0 { return Errored; }
      if |meta.pvname| == 0 { return Errored; }
      var pvpath := PathOnHelper(meta);
      if pod.None? { return Crashed; }
      handlers := handlers.(pod := operatorNs);
      var usable := EnsureRepository(job, pod.value, storage, a);
      if !usable { return Errored; }
      var op := Restic(operatorNs, pod.value, storage, pvc, pvpath, a.backup);
      OnceAttempted(Backups(log), op, meta);
      Backup(job, op);
      return if a.backup then Succeeded else Errored;
    }

    /** The choice of the path, by the second switch over the volume source. */
    static method PathOnHelper(meta: M.Meta) returns (pvpath: string)
      ensures pvpath == VolumePath(meta)
    {
      pvpath := Join(Join(HOST_ROOT, meta.pvdir), meta.pvname);
      if meta.volumeSource == M.VOLUME_HOST_PATH || meta.volumeSource == M.VOLUME_LOCAL {
        pvpath := Join(HOST_ROOT, meta.pvdir);
      }
    }

    static lemma NotAttempted(backups: seq<Op>, storage: Storage, pvc: string, meta: M.Meta)
      ensures forall o | o != Succeeded :: Attempted(backups, backups, storage, pvc, meta, o)
    {
    }

    static lemma OnceAttempted(backups: seq<Op>, op: Op, meta: M.Meta)
      requires op.Restic? && Aimed(op, meta)
      ensures Attempted(backups, backups + [op], op.storage, op.pvc, meta, if op.ok then Succeeded else Errored)
    {
    }

    /** A failing check is taken to mean that there is no repository yet. */
    method EnsureRepository(job: Job, pod: ExecPod, storage: Storage, a: Attempt) returns (usable: bool)
      requires Running(job) && handlers.pod == operatorNs && AtPost(storage, pod)
      modifies this`log, this`helpers, this`repositories
      ensures Running(job) && Backups(log) == old(Backups(log)) && old(log) <= log && AtPost(storage, pod)
      ensures usable <==> if storage in old(repositories) then a.check else a.init
      ensures old(repositories) <= repositories <= old(repositories) + {storage} && (usable ==> storage in repositories)
    {
      var checked := a.check && storage in repositories;
      Ask(job, Check(handlers.pod, pod, storage, checked));
      if checked { return true; }
      usable := a.init && storage !in repositories;
      Initialise(job, pod, storage, usable);
    }

    method Initialise(job: Job, pod: ExecPod, storage: Storage, ok: bool)
      requires Running(job) && handlers.pod == operatorNs && (ok ==> storage !in repositories) && AtPost(storage, pod)
      modifies this`log, this`helpers, this`repositories
      ensures Running(job) && Backups(log) == old(Backups(log)) && old(log) <= log && AtPost(storage, pod)
      ensures repositories == old(repositories) + if ok then {storage} else {}
    {
      hide Helpers, Repositories, Protocol, Names, Backups, CurrentHelper, AllServed;
      Issue(job, Init(handlers.pod, pod, storage, ok));
    }

    method Backup(job: Job, op: Op)
      requires Running(job) && op.Restic? && op.ns == operatorNs && op.storage in repositories
      requires AtPost(op.storage, op.pod)
      modifies this`log, this`helpers, this`repositories
      ensures Running(job) && Backups(log) == old(Backups(log)) + [op] && repositories == old(repositories)
      ensures old(log) <= log
    {
      hide Helpers, Repositories, Protocol, Names, Backups, CurrentHelper, AllServed;
      Issue(job, op);
    }

    /** createBackup2minioDepoyment and its two siblings, or no pod at all. */
    method CreateBackupHelper(job: Job, storage: Storage, meta: M.Meta, a: Attempt)
      returns (pod: Option<ExecPod>, failed: Option<Outcome>)
      requires Running(job)
      modifies this`log, this`helpers, this`repositories, this`handlers, this`deployName
      ensures Running(job) && Aside()
      ensures failed.Some? ==> failed.value in {Errored, Exited}
      ensures failed.Some? && failed.value == Exited <==> storage.MinIO? && a.preparation.NotMade?
      ensures failed.None? && pod.None? <==> !Supported(storage)
      ensures pod.Some? ==> failed.None? && pod.value.node == meta.nodeName && AtPost(storage, pod.value)
      ensures pod.Some? <==>
              Supported(storage) && (storage.Nfs? || a.preparation.Prepared?) && M.HasServingPod(a.helper)
    {
      hide Helpers, Repositories, Protocol, Names, Backups, CurrentHelper, AllServed;
      pod, failed := None, None;
      if !Supported(storage) { return; }
      if !storage.Nfs? {
        handlers := handlers.(sec := operatorNs);
        Ask(job, SecretGet(handlers.sec));
        if a.preparation.NoSecret? { return None, Some(Errored); }
        if a.preparation.NotMade? { return None, Some(if storage.MinIO? then Exited else Errored); }
      }
      var kind := if storage.Nfs? then Backup2nfs else if storage.MinIO? then Backup2minio else Backup2sftp;
      assert BackupKind(storage) == Some(kind);
      var r := CreateHelper(job, kind, meta.nodeName, a.helper);
      if r.Failed? { return None, Some(r.outcome); }
      pod := Some(r.pod);
    }

    /** The function that backupFactory returns for a storage. */
    method BackupClaim(job: Job, storage: Storage, pvc: string, meta: M.Meta, a: Attempt) returns (o: Outcome)
      requires Running(job)
      modifies this`log, this`helpers, this`repositories, this`handlers, this`deployName
      ensures Running(job) && Attempted(old(Backups(log)), Backups(log), storage, pvc, meta, o)
      ensures o == Verdict(job.spec.resource, storage, meta, a, storage in old(repositories))
      ensures old(log) <= log && Grown(old(repositories), repositories, storage, o)
    {
      hide Helpers, Repositories, Protocol, Names, Backups, CurrentHelper, AllServed;
      if storage.Pvc? { return Errored; }
      if job.spec.resource.OtherResource? { return Errored; }
      Ask(job, UserLookup(job.ns));
      if !a.ready { return Errored; }
      var pod, failed := CreateBackupHelper(job, storage, meta, a);
      if failed.Some? { return failed.value; }
      o := Execute(job, pod, storage, pvc, meta, a);
    }

    method BackupEntry(job: Job, storage: Storage, pvc: string, m: M.PvcpvMap, a: Attempt) returns (o: Outcome)
      requires Running(job) && AllAimed(Backups(log), m) && pvc in m
      modifies this`log, this`helpers, this`repositories, this`handlers, this`deployName
      ensures Running(job) && AllAimed(Backups(log), m)
      ensures Completed(Backups(log)) ==
              old(Completed(Backups(log))) + if o == Succeeded then [Pair(storage, pvc)] else []
      ensures o == Verdict(job.spec.resource, storage, m[pvc], a, storage in old(repositories))
      ensures old(log) <= log && Grown(old(repositories), repositories, storage, o)
    {
      ghost var backups := Backups(log);
      o := BackupClaim(job, storage, pvc, m[pvc], a);
      AttemptExtends(backups, Backups(log), storage, pvc, m, o);
    }

    static lemma BatchAppend(batch: seq<string>, claims: set<string>, todo: set<string>, pvc: string)
      requires Distinct(batch) && (set p | p in batch) == claims - todo && todo <= claims && pvc in todo
      ensures Distinct(batch + [pvc]) && (set p | p in batch + [pvc]) == claims - (todo - {pvc})
    {
      var done := set p | p in batch;
      assert (set p | p in batch + [pvc]) == done + {pvc} by {
        assert forall p :: p in batch + [pvc] <==> p in batch || p == pvc;
      }
      assert pvc !in done;
      assert forall p :: p in batch ==> p in done;
    }

    /** The loop over the claims, in whatever order the map yields them. */
    method BackupClaims(job: Job, storage: Storage, m: M.PvcpvMap, w: World)
      returns (o: Outcome, ghost batch: seq<string>)
      requires Running(job) && AllAimed(Backups(log), m) && m != map[]
      modifies this`log, this`helpers, this`repositories, this`handlers, this`deployName
      ensures Running(job) && AllAimed(Backups(log), m)
      ensures Completed(Backups(log)) == old(Completed(Backups(log))) + Pairs(storage, batch)
      ensures if o == Succeeded then FullBatch(batch, m.Keys) else PartBatch(batch, m.Keys)
      ensures Explained(job.spec.resource, w, m, storage, batch, storage in old(repositories), o)
      ensures old(log) <= log && old(repositories) <= repositories <= old(repositories) + {storage}
    {
      hide Helpers, Repositories, Protocol, Names, Backups, CurrentHelper, AllServed,
        Completed, Verdict, Explained, Distinct, Pairs, AllAimed;
      var todo := m.Keys;
      batch, o := [], Succeeded;
      EmptyBatch(job.spec.resource, w, m, storage, storage in repositories);
      while todo != {}
        invariant Running(job) && AllAimed(Backups(log), m) && todo <= m.Keys && o == Succeeded
        invariant Completed(Backups(log)) == old(Completed(Backups(log))) + Pairs(storage, batch)
        invariant Distinct(batch) && (set p | p in batch) == m.Keys - todo
        invariant Explained(job.spec.resource, w, m, storage, batch, storage in old(repositories), Succeeded)
        invariant old(log) <= log && old(repositories) <= repositories <= old(repositories) + {storage}
        invariant storage in repositories <==> storage in old(repositories) || batch != []
      {
        var pvc :| pvc in todo;
        o := BackupEntry(job, storage, pvc, m, w.attempt(storage, pvc));
        ExplainedAppend(job.spec.resource, w, m, storage, batch, storage in old(repositories), pvc);
        if o != Succeeded { return; }
        PairsAppend(storage, batch, pvc);
        BatchAppend(batch, m.Keys, todo, pvc);
        batch, todo := batch + [pvc], todo - {pvc};
      }
    }

    static lemma AttemptExtends(before: seq<Op>, after: seq<Op>, storage: Storage, pvc: string,
                                m: M.PvcpvMap, o: Outcome)
      requires pvc in m && Attempted(before, after, storage, pvc, m[pvc], o) && AllAimed(before, m)
      ensures AllAimed(after, m)
      ensures Completed(after) == Completed(before) + if o == Succeeded then [Pair(storage, pvc)] else []
    {
      if after != before {
        var op := after[|before|];
        assert after == before + [op];
        CompletedAppend(before, op);
      }
    }

    // ---- the run -----------------------------------------------------------------------------------

    /** Between two storages: each one so far has its full batch, and the later
        ones have the repositories they had. */
    ghost predicate Covering(job: Job, storages: seq<Storage>, m: M.PvcpvMap, w: World, batches: seq<seq<string>>)
      reads this
    {
      && Running(job) && AllAimed(Backups(log), m)
      && FullBatches(Completed(Backups(log)), storages, m.Keys, batches)
      && AllExplained(job.spec.resource, w, m, storages, batches, repositoriesBefore, Succeeded)
      && forall q :: |batches| <= q < |storages| ==>
                       (storages[q] in repositories <==> storages[q] in repositoriesBefore)
    }

    /** One round of the loop over the storages. */
    method BackupStorage(job: Job, storages: seq<Storage>, q: nat, m: M.PvcpvMap, w: World,
                         ghost batches: seq<seq<string>>)
      returns (o: Outcome, ghost batches': seq<seq<string>>)
      requires Distinct(storages)
      requires Covering(job, storages, m, w, batches) && q == |batches| < |storages| && m != map[]
      modifies this`log, this`helpers, this`repositories, this`handlers, this`deployName
      ensures Running(job) && AllAimed(Backups(log), m)
      ensures old(log) <= log && |batches'| == |batches| + 1
      ensures AllExplained(job.spec.resource, w, m, storages, batches', repositoriesBefore, o)
      ensures if o == Succeeded then Covering(job, storages, m, w, batches')
              else Covered(Completed(Backups(log)), storages, m.Keys, batches', o)
    {
      hide Helpers, Repositories, Protocol, Names, Backups, CurrentHelper, AllServed, Explained;
      ghost var batch, done := [], Completed(Backups(log));
      o, batch := BackupClaims(job, storages[q], m, w);
      BatchesGrow(done, Completed(Backups(log)), storages, m.Keys, batches, batch, o);
      AllExplainedAppend(job.spec.resource, w, m, storages, batches, repositoriesBefore, batch, o);
      batches' := batches + [batch];
    }

    /** The loop over the requested storages. */
    method BackupAll(job: Job, storages: seq<Storage>, m: M.PvcpvMap, w: World)
      returns (o: Outcome, ghost batches: seq<seq<string>>)
      requires Running(job) && Backups(log) == [] && m != map[] && Distinct(storages)
      requires repositories == repositoriesBefore
      modifies this`log, this`helpers, this`repositories, this`handlers, this`deployName
      ensures Running(job) && AllAimed(Backups(log), m)
      ensures old(log) <= log && Covered(Completed(Backups(log)), storages, m.Keys, batches, o)
      ensures AllExplained(job.spec.resource, w, m, storages, batches, repositoriesBefore, o)
    {
      hide Helpers, Repositories, Protocol, Names, Backups, CurrentHelper, AllServed;
      batches, o := [], Succeeded;
      for q := 0 to |storages|
        invariant Covering(job, storages, m, w, batches) && o == Succeeded && |batches| == q && old(log) <= log
      {
        o, batches := BackupStorage(job, storages, q, m, w, batches);
        if o != Succeeded { return; }
      }
    }

    /** Do without its deferred cleanup. */
    method Perform(ns: string, name: string, w: World)
      returns (o: Outcome, ghost m: Result<M.PvcpvMap>, ghost storages: seq<Storage>, ghost batches: seq<seq<string>>)
      requires Running(Job(ns, name, NO_SPEC)) && Backups(log) == [] && repositories == repositoriesBefore
      modifies this`log, this`helpers, this`repositories, this`handlers, this`deployName
      ensures Running(Job(ns, name, NO_SPEC))
      ensures Reported(w, repositoriesBefore, o, m, storages, batches, Backups(log))
      ensures m.Ok? ==> SearchedFirst(log, m.value)
    {
      hide Running, Searched, Backups, AllAimed, Covered, AllExplained, Distinct, M.Fold, M.Trace;
      m, storages, batches := Err, [], [];
      LookUpBackup(ns, name, w);
      if w.backup.Err? { return Errored, Err, [], []; }
      var job := Job(ns, name, w.backup.value);
      SpecIsNotInTheLog(job);
      var pvcpvMap := ConstructPvcpvMap(job, w);
      SpecIsNotInTheLog(job);
      m := pvcpvMap;
      if pvcpvMap.Err? { return Errored, m, [], []; }
      var requested := ParseStorage(job.spec.to);
      storages := requested;
      ghost var mapped := log;
      o, batches := BackupAll(job, requested, pvcpvMap.value, w);
      SpecIsNotInTheLog(job);
      assert log[..|mapped|] == mapped;
    }

    /** The Backup itself is looked up first. */
    method LookUpBackup(ns: string, name: string, w: World)
      requires Running(Job(ns, name, NO_SPEC))
      modifies this`log, this`helpers, this`repositories
      ensures Running(Job(ns, name, NO_SPEC)) && Aside()
    {
      Ask(Job(ns, name, NO_SPEC), UserLookup(ns));
    }

    lemma SpecIsNotInTheLog(job: Job)
      ensures Running(job) <==> Running(job.(spec := NO_SPEC))
    {
      hide Helpers, Repositories, Protocol, Names, Backups, CurrentHelper, AllServed;
      assert forall op :: Fits(op, job, operatorNs) == Fits(op, job.(spec := NO_SPEC), operatorNs);
    }

    ghost predicate DeletesAll(names: set<string>, w: World)
      reads this
    {
      forall n | n in names :: Delete(operatorNs, n, w.deletes(n)) in log
    }

    /** What a piece of the cleanup leaves behind. */
    twostate predicate Cleaned(names: set<string>, w: World)
      reads this
    {
      && Consistent() && Backups(log) == old(Backups(log)) && old(log) <= log
      && Names(namesBefore, log) == old(Names(namesBefore, log)) && DeletesAll(names, w)
      && (forall i :: |old(log)| <= i < |log| ==> log[i].Delete? && log[i].ns == operatorNs && log[i].name in names)
      && helpers == old(helpers) - Doomed(names, w, operatorNs)
    }

    /** One deletion of the cleanup; its error is ignored. */
    method DeleteHelper(name: string, w: World)
      requires Consistent() && handlers.dep == operatorNs
      modifies this`log, this`helpers, this`repositories
      ensures Cleaned({name}, w)
    {
      hide Helpers, Repositories, Protocol, Names, Backups, CurrentHelper, AllServed;
      Send(Delete(handlers.dep, name, w.deletes(name)));
    }

    method DeletePair(a: string, b: string, w: World)
      requires Consistent() && handlers.dep == operatorNs
      modifies this`log, this`helpers, this`repositories
      ensures Cleaned({a, b}, w)
    {
      hide Helpers, Repositories, Protocol, Names, Backups, CurrentHelper, AllServed;
      DeleteHelper(a, w);
      DeleteHelper(b, w);
      assert Doomed({a, b}, w, operatorNs) == Doomed({a}, w, operatorNs) + Doomed({b}, w, operatorNs);
    }

    method DeleteFour(a: string, b: string, c: string, d: string, w: World)
      requires Consistent() && handlers.dep == operatorNs
      modifies this`log, this`helpers, this`repositories
      ensures Cleaned({a, b, c, d}, w)
    {
      hide Helpers, Repositories, Protocol, Names, Backups, CurrentHelper, AllServed;
      DeletePair(a, b, w);
      DeletePair(c, d, w);
      assert Doomed({a, b, c, d}, w, operatorNs) == Doomed({a, b}, w, operatorNs) + Doomed({c, d}, w, operatorNs);
    }

    /** The deferred cleanup: the name in each of the eight globals. */
    method Clean(w: World)
      requires Consistent() && Named()
      modifies this`log, this`helpers, this`repositories, this`handlers
      ensures Named() && Cleaned(AllNames(deployName), w)
    {
      hide Helpers, Repositories, Protocol, Names, Backups, CurrentHelper, AllServed, AllNames, Doomed;
      handlers := handlers.(dep := operatorNs);
      ghost var g := deployName;
      DeleteFour(deployName.findpvdir, deployName.nfs, deployName.minio, deployName.s3, w);
      DeleteFour(deployName.cephfs, deployName.sftp, deployName.rclone, deployName.restserver, w);
      AllNamesSplit(g);
      DoomedUnion({g.findpvdir, g.nfs, g.minio, g.s3}, {g.cephfs, g.sftp, g.rclone, g.restserver}, w, operatorNs);
    }

    /** The helpers of the run's log that are still there: all of them if the
        process exited, else those whose name is not the one recorded last for
        their kind, or whose deletion failed. */
    ghost predicate Accounted(o: Outcome, w: World)
      reads this
    {
      forall i :: 0 <= i < |log| && log[i].Apply? && log[i].created ==>
                    var op := log[i];
                    Key(op.ns, op.name) in helpers <==>
                                           || o == Exited
                                           || op.name != NameOf(Names(namesBefore, log), op.kind)
                                           || !w.deletes(op.name)
    }

    /** A new run: another Backup may have other repositories. */
    method Begin(ns: string, name: string, w: World)
      modifies this`log, this`helpersBefore, this`repositories, this`repositoriesBefore, this`namesBefore
      ensures helpersBefore == helpers && namesBefore == deployName
      ensures repositories == repositoriesBefore == w.initialised
      ensures Backups(log) == [] && Running(Job(ns, name, NO_SPEC))
    {
      repositories := w.initialised;
      log, helpersBefore, repositoriesBefore, namesBefore := [], helpers, repositories, deployName;
    }

    /** Do, with its deferred cleanup.  The cleanup runs after an error and after
        a panic, but not when the process exits.  The requires clause is an
        invariant between runs, which the constructor sets up. */
    method Do(ns: string, name: string, w: World)
      returns (o: Outcome, ghost m: Result<M.PvcpvMap>, ghost storages: seq<Storage>, ghost batches: seq<seq<string>>)
      requires Consistent() && Named() && WellKinded(deployName)
      modifies this
      ensures Consistent() && Named() && WellKinded(deployName)
      ensures helpersBefore == old(helpers) && repositoriesBefore == w.initialised && namesBefore == old(deployName)
      ensures forall spec :: Orderly(Job(ns, name, spec))
      ensures Reported(w, repositoriesBefore, o, m, storages, batches, Backups(log))
      ensures m.Ok? ==> SearchedFirst(log, m.value)
      ensures Accounted(o, w)
      ensures o != Exited ==> DeletesAll(AllNames(deployName), w)
      ensures forall i :: 0 <= i < |log| && log[i].Delete? ==> log[i].name in AllNames(deployName)
    {
      hide Helpers, Repositories, Protocol, Names, Backups, CurrentHelper, AllServed, SearchedFirst;
      Begin(ns, name, w);
      o, m, storages, batches := Perform(ns, name, w);
      CreatedHelpersExist(Job(ns, name, NO_SPEC));
      NamesStayWellKinded(namesBefore, log, name);
      if o != Exited {
        ghost var run, there := log, helpers;
        Clean(w);
        Survivors(Job(ns, name, NO_SPEC), run, there, w);
        if m.Ok? { SearchedFirstLater(run, log, m.value); }
      }
    }

    /** While a run deletes nothing, what it created is there. */
    lemma CreatedHelpersExist(job: Job)
      requires Running(job)
      ensures forall i :: 0 <= i < |log| && log[i].Apply? && log[i].created ==> Key(log[i].ns, log[i].name) in helpers
    {
      forall i | 0 <= i < |log| && log[i].Apply? && log[i].created
        ensures Key(log[i].ns, log[i].name) in helpers
      {
        StaysCreated(helpersBefore, log, i);
      }
    }

    lemma Survivors(job: Job, run: seq<Op>, there: set<Key>, w: World)
      requires Consistent() && Named() && WellKinded(deployName) && Orderly(job)
      requires run <= log && forall i :: |run| <= i < |log| ==> log[i].Delete?
      requires forall i :: 0 <= i < |run| && run[i].Apply? && run[i].created ==> Key(run[i].ns, run[i].name) in there
      requires helpers == there - Doomed(AllNames(deployName), w, operatorNs)
      ensures Accounted(Succeeded, w)
    {
      forall i | 0 <= i < |log| && log[i].Apply? && log[i].created
        ensures Key(log[i].ns, log[i].name) in helpers <==>
                || log[i].name != NameOf(Names(namesBefore, log), log[i].kind)
                || !w.deletes(log[i].name)
      {
        var op := log[i];
        assert i < |run| && op == run[i];
        NameIsOfKind(op.kind, op.node, job.name);
        OnlyItsOwnKind(deployName, op.kind, op.name);
        assert Key(op.ns, op.name) in Doomed(AllNames(deployName), w, operatorNs) <==>
               op.name in AllNames(deployName) && w.deletes(op.name);
      }
    }
  }

  /** What a run reports: either it stopped before the first storage, or it worked
      with the map that the loops over the pods leave, backed up entries of that
      map only, and covered the requested storages as far as Covered says. */
  ghost predicate Reported(w: World, initialised: set<Storage>, o: Outcome, m: Result<M.PvcpvMap>,
                           storages: seq<Storage>, batches: seq<seq<string>>, backups: seq<Op>)
  {
    if w.backup.Err? || PvcpvMapOf(w.backup.value.resource, w).Err? then
      o == Errored && backups == []
    else
      && m == PvcpvMapOf(w.backup.value.resource, w)
      && Distinct(storages) && (forall s :: s in storages <==> s in w.backup.value.to)
      && AllAimed(backups, m.value)
      && Covered(Completed(backups), storages, m.value.Keys, batches, o)
      && AllExplained(w.backup.value.resource, w, m.value, storages, batches, initialised, o)
  }

  /** Why a batch is what it is: each attempt in it met answers that make it
      succeed, and if the batch ended with another outcome, that is the verdict on
      a claim that is not in it.  Only the first attempt can find the repository
      uninitialised. */
  ghost predicate Explained(resource: Resource, w: World, m: M.PvcpvMap, storage: Storage, batch: seq<string>,
                            initialised: bool, o: Outcome)
  {
    && (forall r :: 0 <= r < |batch| ==>
                      && batch[r] in m
                      && Verdict(resource, storage, m[batch[r]], w.attempt(storage, batch[r]), initialised || r > 0) == Succeeded)
    && (o != Succeeded ==> exists pvc ::
            && pvc in m && pvc !in batch
            && Verdict(resource, storage, m[pvc], w.attempt(storage, pvc), initialised || batch != []) == o)
  }

  lemma EmptyBatch(resource: Resource, w: World, m: M.PvcpvMap, storage: Storage, initialised: bool)
    ensures Explained(resource, w, m, storage, [], initialised, Succeeded)
    ensures Distinct<string>([]) && Pairs(storage, []) == []
  {
  }

  lemma ExplainedAppend(resource: Resource, w: World, m: M.PvcpvMap, storage: Storage, batch: seq<string>,
                        initialised: bool, pvc: string)
    requires Explained(resource, w, m, storage, batch, initialised, Succeeded) && pvc in m && pvc !in batch
    ensures var o := Verdict(resource, storage, m[pvc], w.attempt(storage, pvc), initialised || batch != []);
            Explained(resource, w, m, storage, if o == Succeeded then batch + [pvc] else batch, initialised, o)
  {
    hide Verdict;
  }

  /** The same for all batches: only the last one can have ended badly. */
  ghost predicate AllExplained(resource: Resource, w: World, m: M.PvcpvMap, storages: seq<Storage>,
                               batches: seq<seq<string>>, initialised: set<Storage>, o: Outcome)
  {
    && |batches| <= |storages|
    && forall q :: 0 <= q < |batches| ==>
                     Explained(resource, w, m, storages[q], batches[q], storages[q] in initialised,
                               if q == |batches| - 1 then o else Succeeded)
  }

  lemma AllExplainedAppend(resource: Resource, w: World, m: M.PvcpvMap, storages: seq<Storage>,
                           batches: seq<seq<string>>, initialised: set<Storage>, batch: seq<string>, o: Outcome)
    requires AllExplained(resource, w, m, storages, batches, initialised, Succeeded) && |batches| < |storages|
    requires Explained(resource, w, m, storages[|batches|], batch, storages[|batches|] in initialised, o)
    ensures AllExplained(resource, w, m, storages, batches + [batch], initialised, o)
  {
    hide Explained;
    var all := batches + [batch];
    assert all[|batches|] == batch && forall q :: 0 <= q < |batches| ==> all[q] == batches[q];
  }

  /** What is completed is one full batch for each of the first storages. */
  ghost predicate FullBatches(done: seq<Pair>, storages: seq<Storage>, claims: set<string>, batches: seq<seq<string>>) {
    && |batches| <= |storages| && done == Batches(storages, batches)
    && forall q :: 0 <= q < |batches| ==> FullBatch(batches[q], claims)
  }

  /** Completed backups are full batches for all storages, or, if the run failed,
      full batches for the first ones and a proper part of a batch for the one it
      failed at. */
  ghost predicate Covered(done: seq<Pair>, storages: seq<Storage>, claims: set<string>,
                          batches: seq<seq<string>>, o: Outcome)
  {
    if o == Succeeded then
      FullBatches(done, storages, claims, batches) && |batches| == |storages|
    else
      && 0 < |batches| <= |storages| && done == Batches(storages, batches)
      && (forall q :: 0 <= q < |batches| - 1 ==> FullBatch(batches[q], claims))
      && PartBatch(batches[|batches| - 1], claims)
  }

  lemma BatchesGrow(before: seq<Pair>, after: seq<Pair>, storages: seq<Storage>, claims: set<string>,
                    batches: seq<seq<string>>, batch: seq<string>, o: Outcome)
    requires FullBatches(before, storages, claims, batches) && |batches| < |storages|
    requires after == before + Pairs(storages[|batches|], batch)
    requires if o == Succeeded then FullBatch(batch, claims) else PartBatch(batch, claims)
    ensures if o == Succeeded then FullBatches(after, storages, claims, batches + [batch])
            else Covered(after, storages, claims, batches + [batch], o)
  {
    BatchesAppend(storages, batches, batch);
    var all := batches + [batch];
    assert all[|batches|] == batch && forall q :: 0 <= q < |batches| ==> all[q] == batches[q];
  }

  lemma DoomedUnion(a: set<string>, b: set<string>, w: World, ns: string)
    ensures Doomed(a + b, w, ns) == Doomed(a, w, ns) + Doomed(b, w, ns)
  {
  }

  function Doomed(names: set<string>, w: World, ns: string): set<Key> {
    set n | n in names && w.deletes(n) :: Key(ns, n)
  }

  /** The map a run works with: the fold of the trace of its loops, if they run to
      the end and leave anything in it. */
  function PvcpvMapOf(resource: Resource, w: World): Result<M.PvcpvMap> {
    if resource.OtherResource? || !w.listed then Err else
    var t := M.Trace(w.answers, |w.answers.pods|);
    if t.Err? || M.Fold(t.value) == map[] then Err else Ok(M.Fold(t.value))
  }
}

/** What a backup run does to the outside, call by call, and what follows from a
    log of such calls alone. */
module RunLog {
  import opened Cluster
  import opened HelperNames

  /** The fields of Backup.spec.backupTo, in their order. */
  datatype Storage = Nfs | Pvc | CephFs | S3 | MinIO | RestServer | Sftp | Rclone

  /** A pod that commands are executed in, and the node it runs on. */
  datatype ExecPod = ExecPod(name: string, node: string)

  /** Each call carries the namespace its handler pointed to when it was made.  Find
      stands for all attempts of one search. */
  datatype Op =
    | UserLookup(ns: string)
    | SecretGet(ns: string)
    | Apply(ns: string, kind: Kind, name: string, node: string, created: bool)
    | HelperQuery(ns: string, name: string)
    | HelperPods(ns: string, name: string, pods: seq<HelperPod>)
    | Find(ns: string, pod: ExecPod, uid: string, source: string)
    | Check(ns: string, pod: ExecPod, storage: Storage, ok: bool)
    | Init(ns: string, pod: ExecPod, storage: Storage, ok: bool)
    | Restic(ns: string, pod: ExecPod, storage: Storage, pvc: string, path: string, ok: bool)
    | Delete(ns: string, name: string, ok: bool)

  // ---- namespaces ---------------------------------------------------------------

  /** User resources are looked up in the Backup's namespace, everything else
      happens in the operator's. */
  predicate Disciplined(op: Op, userNs: string, operatorNs: string) {
    op.ns == if op.UserLookup? then userNs else operatorNs
  }

  // ---- helpers --------------------------------------------------------------------

  /** The helper Deployments after the calls of log. */
  function Helpers(before: set<Key>, log: seq<Op>): set<Key> {
    if log == [] then before else HelpersStep(Helpers(before, log[..|log| - 1]), log[|log| - 1])
  }

  function HelpersStep(helpers: set<Key>, op: Op): set<Key> {
    if op.Apply? && op.created then helpers + {Key(op.ns, op.name)}
    else if op.Delete? && op.ok then helpers - {Key(op.ns, op.name)}
    else helpers
  }

  /** The globals after the calls of log: each Apply has recorded its name. */
  function Names(before: Globals, log: seq<Op>): Globals {
    if log == [] then before else NamesStep(Names(before, log[..|log| - 1]), log[|log| - 1])
  }

  function NamesStep(g: Globals, op: Op): Globals {
    if op.Apply? then Record(g, op.kind, op.name) else g
  }

  ghost predicate DeletesNothing(log: seq<Op>) {
    forall i :: 0 <= i < |log| ==> !log[i].Delete?
  }

  /** What was created is there as long as nothing is deleted after it. */
  lemma {:induction false} StaysCreated(before: set<Key>, log: seq<Op>, x: nat)
    requires x < |log| && log[x].Apply? && log[x].created
    requires forall y :: x < y < |log| ==> !log[y].Delete?
    ensures Key(log[x].ns, log[x].name) in Helpers(before, log)
  {
    if x < |log| - 1 {
      StaysCreated(before, log[..|log| - 1], x);
    }
  }

  lemma {:induction false} NamesStayWellKinded(before: Globals, log: seq<Op>, backup: string)
    requires WellKinded(before)
    requires forall i :: 0 <= i < |log| && log[i].Apply? ==> log[i].name == DeployName(log[i].kind, log[i].node, backup)
    ensures WellKinded(Names(before, log))
  {
    if log != [] {
      var rest, op := log[..|log| - 1], log[|log| - 1];
      NamesStayWellKinded(before, rest, backup);
      if op.Apply? {
        NameIsOfKind(op.kind, op.node, backup);
        RecordedName(Names(before, rest), op.kind, op.name);
      }
    }
  }

  /** With all helpers on one node, each has the name recorded last for its kind. */
  lemma {:induction false} OneNodeIsRecorded(log: seq<Op>, backup: string, node: string, i: nat, before: Globals)
    requires forall l :: 0 <= l < |log| && log[l].Apply? ==>
                           log[l].node == node && log[l].name == DeployName(log[l].kind, node, backup)
    requires i < |log| && log[i].Apply?
    ensures NameOf(Names(before, log), log[i].kind) == log[i].name
  {
    var last := log[|log| - 1];
    if !(last.Apply? && last.kind == log[i].kind) {
      assert log[..|log| - 1][i] == log[i];
      OneNodeIsRecorded(log[..|log| - 1], backup, node, i, before);
    }
  }

  // ---- commands run in helpers ---------------------------------------------------------

  /** The kind of helper that backs up to a storage, if there is one. */
  function BackupKind(storage: Storage): Option<Kind> {
    match storage
    case Nfs => Some(Backup2nfs)
    case MinIO => Some(Backup2minio)
    case Sftp => Some(Backup2sftp)
    case _ => None
  }

  predicate InPod(op: Op) {
    op.Find? || op.Check? || op.Init? || op.Restic?
  }

  function KindFor(op: Op): Option<Kind>
    requires InPod(op)
  {
    if op.Find? then Some(Findpvdir) else BackupKind(op.storage)
  }

  /** The helper applied last: whether it was created, and which of its pods was
      listed as the first to serve. */
  datatype Current =
    | NoHelper
    | Applied(kind: Kind, name: string, node: string)
    | Serves(kind: Kind, name: string, pod: ExecPod)

  function CurrentStep(current: Current, op: Op): Current {
    match op
    case Apply(_, kind, name, node, created) => if created then Applied(kind, name, node) else NoHelper
    case HelperPods(_, name, pods) =>
      if current.Applied? && current.name == name && FirstPod(pods).Some? then
        Serves(current.kind, name, ExecPod(FirstPod(pods).value.name, current.node))
      else current
    case Delete(_, _, _) => NoHelper
    case _ => current
  }

  function CurrentHelper(log: seq<Op>): Current {
    if log == [] then NoHelper else CurrentStep(CurrentHelper(log[..|log| - 1]), log[|log| - 1])
  }

  /** A command goes to the serving pod of the current helper, which is of the
      kind that the command is for. */
  predicate Served(op: Op, current: Current) {
    InPod(op) ==> current.Serves? && KindFor(op) == Some(current.kind) && op.pod == current.pod
  }

  predicate AllServed(log: seq<Op>) {
    log == [] || (AllServed(log[..|log| - 1]) && Served(log[|log| - 1], CurrentHelper(log[..|log| - 1])))
  }

  lemma ServedAppend(log: seq<Op>, op: Op)
    ensures CurrentHelper(log + [op]) == CurrentStep(CurrentHelper(log), op)
    ensures AllServed(log + [op]) <==> AllServed(log) && Served(op, CurrentHelper(log))
  {
    assert (log + [op])[..|log|] == log;
  }

  /** Calls j and l made op's pod available: j created a helper of the right kind on
      the pod's node, l listed the pod as that helper's first serving one, and no
      helper was applied or deleted since. */
  ghost predicate Provided(log: seq<Op>, i: int, j: int, l: int) {
    && 0 <= j < l < i < |log| && InPod(log[i])
    && log[j].Apply? && log[j].created && Some(log[j].kind) == KindFor(log[i]) && log[j].node == log[i].pod.node
    && log[l].HelperPods? && log[l].name == log[j].name
    && FirstPod(log[l].pods).Some? && FirstPod(log[l].pods).value.name == log[i].pod.name
    && forall x :: j < x < i ==> !log[x].Apply? && !log[x].Delete?
  }

  /** Where the current helper comes from. */
  ghost predicate Origin(log: seq<Op>, j: int, l: int) {
    var current := CurrentHelper(log);
    && 0 <= j < |log| && log[j].Apply? && log[j].created && !current.NoHelper?
    && log[j].kind == current.kind && log[j].name == current.name
    && (forall x :: j < x < |log| ==> !log[x].Apply? && !log[x].Delete?)
    && (if current.Applied? then log[j].node == current.node else
        && j < l < |log| && log[j].node == current.pod.node
        && log[l].HelperPods? && log[l].name == log[j].name
        && FirstPod(log[l].pods).Some? && FirstPod(log[l].pods).value.name == current.pod.name)
  }

  lemma {:induction false} CurrentHasOrigin(log: seq<Op>) returns (j: int, l: int)
    requires !CurrentHelper(log).NoHelper?
    ensures Origin(log, j, l)
  {
    var n := |log| - 1;
    var rest, op := log[..n], log[n];
    if op.Apply? {
      j, l := n, n;
    } else {
      j, l := CurrentHasOrigin(rest);
      assert forall x :: 0 <= x < n ==> rest[x] == log[x];
      if CurrentHelper(rest).Applied? && CurrentHelper(log).Serves? {
        l := n;
      }
    }
  }

  /** Every command of the log runs in a pod of a helper that an earlier call
      created for it. */
  lemma {:induction false} CommandsAreProvided(log: seq<Op>, i: nat) returns (j: int, l: int)
    requires AllServed(log) && i < |log| && InPod(log[i])
    ensures Provided(log, i, j, l)
  {
    var n := |log| - 1;
    var rest := log[..n];
    assert forall x :: 0 <= x < n ==> rest[x] == log[x];
    if i < n {
      j, l := CommandsAreProvided(rest, i);
    } else {
      j, l := CurrentHasOrigin(rest);
    }
  }

  // ---- repositories ------------------------------------------------------------------

  function Repositories(before: set<Storage>, log: seq<Op>): set<Storage> {
    if log == [] then before else RepositoriesStep(Repositories(before, log[..|log| - 1]), log[|log| - 1])
  }

  function RepositoriesStep(repositories: set<Storage>, op: Op): set<Storage> {
    if op.Init? && op.ok then repositories + {op.storage} else repositories
  }

  /** Every backup goes to an initialised repository, and no initialised
      repository is initialised again. */
  predicate Protocol(before: set<Storage>, log: seq<Op>) {
    log == [] ||
    var rest, op := log[..|log| - 1], log[|log| - 1];
    && Protocol(before, rest)
    && (op.Restic? ==> op.storage in Repositories(before, rest))
    && (op.Init? && op.ok ==> op.storage !in Repositories(before, rest))
  }

  function Initialisations(log: seq<Op>, storage: Storage): nat {
    if log == [] then 0 else
    var op := log[|log| - 1];
    Initialisations(log[..|log| - 1], storage) + if op.Init? && op.ok && op.storage == storage then 1 else 0
  }

  /** Under the protocol a repository is initialised successfully at most once,
      and not at all if it was there before; the count says which there are. */
  lemma {:induction false} InitialisedAtMostOnce(before: set<Storage>, log: seq<Op>, storage: Storage)
    requires Protocol(before, log)
    ensures Initialisations(log, storage) + (if storage in before then 1 else 0)
         == if storage in Repositories(before, log) then 1 else 0
  {
    if log != [] {
      InitialisedAtMostOnce(before, log[..|log| - 1], storage);
    }
  }

  /** And every backup in it is preceded by an initialisation, of this run or of
      an earlier one. */
  lemma {:induction false} BackupsFollowInitialisation(before: set<Storage>, log: seq<Op>, i: nat)
    requires Protocol(before, log) && i < |log| && log[i].Restic?
    ensures log[i].storage in before ||
            exists j :: 0 <= j < i && log[j].Init? && log[j].ok && log[j].storage == log[i].storage
  {
    var rest := log[..|log| - 1];
    if i < |log| - 1 {
      BackupsFollowInitialisation(before, rest, i);
      assert rest[i] == log[i];
      if log[i].storage !in before {
        var j :| 0 <= j < i && rest[j].Init? && rest[j].ok && rest[j].storage == rest[i].storage;
        assert log[j] == rest[j];
      }
    } else {
      InitialisedSomewhere(before, rest, log[i].storage);
      if log[i].storage !in before {
        var j :| 0 <= j < |rest| && rest[j].Init? && rest[j].ok && rest[j].storage == log[i].storage;
        assert log[j] == rest[j];
      }
    }
  }

  lemma {:induction false} InitialisedSomewhere(before: set<Storage>, log: seq<Op>, storage: Storage)
    requires storage in Repositories(before, log)
    ensures storage in before ||
            exists j :: 0 <= j < |log| && log[j].Init? && log[j].ok && log[j].storage == storage
  {
    if storage !in before {
      var rest, n := log[..|log| - 1], |log| - 1;
      if storage in Repositories(before, rest) {
        InitialisedSomewhere(before, rest, storage);
        var j :| 0 <= j < |rest| && rest[j].Init? && rest[j].ok && rest[j].storage == storage;
        assert log[j] == rest[j];
      } else {
        assert log[n].Init? && log[n].ok && log[n].storage == storage;
      }
    }
  }

  // ---- completed backups -----------------------------------------------------------------

  datatype Pair = Pair(storage: Storage, pvc: string)

  /** The backups among the calls of log. */
  function Backups(log: seq<Op>): seq<Op> {
    if log == [] then [] else
    var op := log[|log| - 1];
    Backups(log[..|log| - 1]) + if op.Restic? then [op] else []
  }

  lemma {:induction false} BackupsAreLogged(log: seq<Op>, i: nat)
    requires i < |log| && log[i].Restic?
    ensures log[i] in Backups(log)
  {
    if i < |log| - 1 {
      BackupsAreLogged(log[..|log| - 1], i);
    }
  }

  /** The successful ones among backups, in order. */
  function Completed(backups: seq<Op>): seq<Pair> {
    if backups == [] then [] else
    var op := backups[|backups| - 1];
    Completed(backups[..|backups| - 1]) + if op.Restic? && op.ok then [Pair(op.storage, op.pvc)] else []
  }

  lemma CompletedAppend(backups: seq<Op>, op: Op)
    ensures Completed(backups + [op]) ==
            Completed(backups) + if op.Restic? && op.ok then [Pair(op.storage, op.pvc)] else []
  {
    assert (backups + [op])[..|backups|] == backups;
  }

  ghost predicate Distinct<T(!new)>(s: seq<T>) {
    forall i, j :: 0 <= i < j < |s| ==> s[i] != s[j]
  }

  function Pairs(storage: Storage, pvcs: seq<string>): seq<Pair> {
    seq(|pvcs|, i requires 0 <= i < |pvcs| => Pair(storage, pvcs[i]))
  }

  lemma PairsAppend(storage: Storage, pvcs: seq<string>, pvc: string)
    ensures Pairs(storage, pvcs + [pvc]) == Pairs(storage, pvcs) + [Pair(storage, pvc)]
  {
  }

  /** Batch q is what was completed for storage q. */
  function Batches(storages: seq<Storage>, batches: seq<seq<string>>): seq<Pair>
    requires |batches| <= |storages|
  {
    if batches == [] then [] else
    var n := |batches| - 1;
    Batches(storages, batches[..n]) + Pairs(storages[n], batches[n])
  }

  lemma BatchesAppend(storages: seq<Storage>, batches: seq<seq<string>>, batch: seq<string>)
    requires |batches| < |storages|
    ensures Batches(storages, batches + [batch]) == Batches(storages, batches) + Pairs(storages[|batches|], batch)
  {
    assert (batches + [batch])[..|batches|] == batches;
  }

  /** A batch that covers all claims, each once. */
  ghost predicate FullBatch(batch: seq<string>, claims: set<string>) {
    Distinct(batch) && (set p | p in batch) == claims
  }

  /** A batch that was cut short. */
  ghost predicate PartBatch(batch: seq<string>, claims: set<string>) {
    Distinct(batch) && (set p | p in batch) < claims
  }

  function Occurrences(done: seq<Pair>, p: Pair): nat {
    multiset(done)[p]
  }

  lemma PairsCount(storage: Storage, pvcs: seq<string>, p: Pair)
    requires Distinct(pvcs)
    ensures Occurrences(Pairs(storage, pvcs), p) == if p.storage == storage && p.pvc in pvcs then 1 else 0
  {
    var ps := Pairs(storage, pvcs);
    if p.storage == storage && p.pvc in pvcs {
      var i :| 0 <= i < |pvcs| && pvcs[i] == p.pvc;
      assert ps == ps[..i] + [ps[i]] + ps[i + 1..];
      assert p !in ps[..i] && p !in ps[i + 1..];
    } else {
      assert p !in ps;
    }
  }

  /** Exact coverage: with each storage requested once and full batches for the
      first q of them, every pair of these is completed exactly once and no pair
      of a later storage at all. */
  lemma {:induction false} CoveredOnce(storages: seq<Storage>, batches: seq<seq<string>>, claims: set<string>, p: Pair)
    requires |batches| <= |storages| && Distinct(storages)
    requires forall q :: 0 <= q < |batches| ==> FullBatch(batches[q], claims)
    ensures Occurrences(Batches(storages, batches), p)
         == if p.storage in storages[..|batches|] && p.pvc in claims then 1 else 0
  {
    hide Pairs, FullBatch;
    if batches != [] {
      var n := |batches| - 1;
      CoveredOnce(storages, batches[..n], claims, p);
      FullBatchCount(storages[n], batches[n], claims, p);
      assert storages[..n + 1] == storages[..n] + [storages[n]];
      assert storages[n] !in storages[..n];
    }
  }

  lemma FullBatchCount(storage: Storage, batch: seq<string>, claims: set<string>, p: Pair)
    requires FullBatch(batch, claims)
    ensures Occurrences(Pairs(storage, batch), p) == if p.storage == storage && p.pvc in claims then 1 else 0
  {
    PairsCount(storage, batch, p);
    assert p.pvc in batch <==> p.pvc in (set q | q in batch);
  }

  // ---- requested storages --------------------------------------------------------------------

  const FIELDS: seq<Storage> := [Nfs, Pvc, CephFs, S3, MinIO, RestServer, Sftp, Rclone]

  /** The requested ones among the first n fields. */
  function Requested(to: set<Storage>, n: nat): seq<Storage>
    requires n <= |FIELDS|
  {
    if n == 0 then [] else Requested(to, n - 1) + if FIELDS[n - 1] in to then [FIELDS[n - 1]] else []
  }

  lemma {:induction false} RequestedOnce(to: set<Storage>, n: nat)
    requires n <= |FIELDS|
    ensures Distinct(Requested(to, n))
    ensures forall s :: s in Requested(to, n) <==> s in to && s in FIELDS[..n]
  {
    if n > 0 {
      RequestedOnce(to, n - 1);
      assert FIELDS[..n] == FIELDS[..n - 1] + [FIELDS[n - 1]];
      assert FIELDS[n - 1] !in FIELDS[..n - 1];
    }
  }

  /** The place of a storage's field in the specification. */
  function FieldNumber(s: Storage): nat {
    match s
    case Nfs => 1
    case Pvc => 2
    case CephFs => 3
    case S3 => 4
    case MinIO => 5
    case RestServer => 6
    case Sftp => 7
    case Rclone => 8
  }

  lemma {:induction false} RequestedInOrder(to: set<Storage>, n: nat)
    requires n <= |FIELDS|
    ensures forall s :: s in Requested(to, n) ==> FieldNumber(s) <= n
    ensures forall i, j :: 0 <= i < j < |Requested(to, n)| ==>
                             FieldNumber(Requested(to, n)[i]) < FieldNumber(Requested(to, n)[j])
  {
    if n > 0 {
      RequestedInOrder(to, n - 1);
      assert FieldNumber(FIELDS[n - 1]) == n;
    }
  }

  /** parseStorage: the storages whose field is set, each once, in field order. */
  method ParseStorage(to: set<Storage>) returns (storages: seq<Storage>)
    ensures storages == Requested(to, |FIELDS|)
    ensures Distinct(storages) && forall s :: s in storages <==> s in to
    ensures forall i, j :: 0 <= i < j < |storages| ==> FieldNumber(storages[i]) < FieldNumber(storages[j])
  {
    storages := [];
    for i := 0 to |FIELDS|
      invariant storages == Requested(to, i)
    {
      if FIELDS[i] in to {
        storages := storages + [FIELDS[i]];
      }
    }
    RequestedOnce(to, |FIELDS|);
    RequestedInOrder(to, |FIELDS|);
    assert forall s :: s in FIELDS[..|FIELDS|] by {
      forall s: Storage ensures s in FIELDS { EveryStorageHasAField(s); }
      assert FIELDS[..|FIELDS|] == FIELDS;
    }
  }

  lemma EveryStorageHasAField(s: Storage)
    ensures s in FIELDS
  {
    match s
    case Nfs => assert FIELDS[0] == s;
    case Pvc => assert FIELDS[1] == s;
    case CephFs => assert FIELDS[2] == s;
    case S3 => assert FIELDS[3] == s;
    case MinIO => assert FIELDS[4] == s;
    case RestServer => assert FIELDS[5] == s;
    case Sftp => assert FIELDS[6] == s;
    case Rclone => assert FIELDS[7] == s;
  }

  // ---- one more call ------------------------------------------------------------------------

  lemma StoresAppend(helpers: set<Key>, repositories: set<Storage>, log: seq<Op>, op: Op)
    ensures Helpers(helpers, log + [op]) == HelpersStep(Helpers(helpers, log), op)
    ensures Repositories(repositories, log + [op]) == RepositoriesStep(Repositories(repositories, log), op)
  {
    assert (log + [op])[..|log|] == log;
  }

  lemma ProtocolAppend(before: set<Storage>, log: seq<Op>, op: Op)
    requires Protocol(before, log)
    requires op.Restic? ==> op.storage in Repositories(before, log)
    requires op.Init? && op.ok ==> op.storage !in Repositories(before, log)
    ensures Protocol(before, log + [op])
  {
    assert (log + [op])[..|log|] == log;
  }

  lemma LogAppend(names: Globals, log: seq<Op>, op: Op)
    ensures Backups(log + [op]) == Backups(log) + if op.Restic? then [op] else []
    ensures Names(names, log + [op]) == NamesStep(Names(names, log), op)
  {
    assert (log + [op])[..|log|] == log;
  }
}

# Horus operator: the Backup controller and the backup run

This project models the two halves of Horus that keep state, and proves what
they guarantee.

**The Backup controller** reacts to a Backup object: it keeps a ServiceAccount,
a ClusterRole, a ClusterRoleBinding and a CronJob in place, and then adds or
removes its finalizer. `Cluster` holds the objects and the single writes,
`Reconcile` the controller as a class whose every method is proved equal to a
call-by-call pass under arbitrary replies (`Pass`: each call answered, failed, or
failed after it took effect). On top of that:

- `PassProperties`: what one pass, or a bounded number of passes, achieves.
- `Interleaving`: a machine that makes one API call per step, with crashes and
  with other clients writing in between; its theorems are about all its runs.
- `WorkQueue` and `Quiescence`: the same machine with error-free calls, the work
  queue, the wake-ups caused by each write, and the garbage collector that may come
  between any two calls; and a measure that every step lowers.
- `Confluence`: where its executions end. The order of the work does not matter,
  and the moment at which the collector comes matters for the shared account only.
- `LostAccount`: exactly when that account can be lost for good.
- `SharedDeletion`: what deleting one Backup does to the others.

**The backup run** (`horusctl backup`) maps the claims of a workload to volumes,
starts helper Deployments on their nodes, runs restic there for every requested
storage, and deletes the helpers. `BackupRun` is that process as a class: the
package globals, the shared handlers with their current namespaces, the helpers,
the repositories, and a ghost log of all calls. `Retry`, `HelperNames`, `PvcMap`
and `RunLog` hold the specifications its methods are proved against;
`RunProperties` draws the conclusions.

## What the proofs show about the code

- The results of the three RBAC updates are discarded
  (controllers/storage/backup_controller.go:139, 167, 195), so a pass can end
  quietly with stale RBAC objects; `QuietPass` says exactly what such a pass has
  achieved. In particular all four dependents end up as rendered if and only if
  no binding with another role reference was in the way (`Convergence`).
- The CronJob is rendered into `default` but looked up in the namespace of the
  Backup. Backups elsewhere never get a finalizer, and their binding is never
  deleted (`ForeignNamespaceNeverFinalizes`, `ForeignNamespaceLeaksBinding`).
- The binding and the ServiceAccount are shared by the Backups of a namespace, and
  nobody is queued when they go. After the deletion of one Backup the others are
  left without them; they all keep what they need if and only if there are no
  others (`DeletionStarvesSiblings`).
- The collector may take a ServiceAccount with a dead owner between the read and
  the update of a pass (controllers/storage/backup_controller.go:126, 139). The
  error of the update is discarded, and only the dead owner is queued. Without any
  API failure the Backup can so end without its account. This happens in some
  execution if and only if the start is exposed: a dead owner, a single Backup that
  is not the owner's namesake, and nothing for that Backup to create or to bring up
  to date (`LossIffExposed`). A CronJob lost in the same way is recreated, since
  that error is returned.
- No binding is orphaned as long as Backups are deleted only while our finalizer
  is on them and is the only one (`NoOrphanBinding`); two runs show that either
  half is needed.
- The comment at controllers/storage/backup_controller.go:406-408 says that
  NotFound is to be ignored when the binding is deleted; the code does not ignore
  it, and the model follows the code. The same pass recreates a missing binding
  first, so release is bounded all the same (`Release`).
- The CronJob passes the name of the backed-up resource where horusctl expects the
  name of a Backup (pkg/template/cronjob_backup.go:28, pkg/backup/backup.go:106),
  so the job runs its own Backup if and only if the two names are equal
  (`CronJobRunsItsOwnBackup`). The schedule of the Backup is not used: the
  template has a fixed one.
- Cleanup deletes one name for each kind of helper, the last one recorded. With
  claims on two nodes the helper of the earlier node stays
  (`CleanupLeavesOtherNodes`).
- Helper names do not contain the namespace of the Backup. Two runs are
  independent at every moment unless node, dash and Backup name read the same, and
  then one's cleanup can take a helper that the other still uses
  (`ConcurrentRunsAreIndependent`, `CollidingRunsInterfere`).
- A claim with a directory but without a resolved volume makes the whole run fail
  (`SuccessMeansLocated`, `Culprit`). The storages cephfs, s3, rclone and
  restServer dereference a missing pod, after the guards; pvc is refused.
- A MinIO bucket that cannot be made ends the process inside `logrus.Fatal`
  (pkg/minio/minio.go:38), so that exit skips the cleanup, although the caller
  handles an error there.

## Assumptions

- The API server: reads are current (a stale informer cache is not modelled); a
  write of a Backup carries the version it was read at and is refused if the
  Backup has changed; updating a role or a binding that does not exist creates it;
  the role reference of a binding is immutable; the generation of a CronJob moves
  exactly when its spec does, that of a ServiceAccount does not exist; a deleting
  object takes no new finalizers and goes with the last one.
- An owner reference is alive while a Backup with that name and uid exists in the
  object's namespace; the garbage collector removes objects with a dead owner,
  some time, also between two calls of a pass. Wake-ups concern Backups, ServiceAccounts and CronJobs, because a
  cluster-scoped object cannot be owned by a Backup and that error is ignored.
- The controller has one worker, as controller-runtime sets up by default. The
  queue is a set of requests.
- Finalizers are a set. The rules of the ClusterRole are one constant.
- GetPods of a helper lists the pods that this Deployment owns and no others,
  although all helpers of a kind carry the same labels; and these pods run on the
  node that it names. So a pod that is listed for a helper is on the node of the
  call that applied it. `WithNamespace`
  gives a handler of its own and leaves the shared one alone.
- A restic check succeeds on an initialised repository only, and `restic init`
  fails on an existing one. Each storage of a Backup is a repository of its own, and which of them are
  initialised when a run starts is given from outside.
- Output of commands is valid UTF-8. Paths are joined with a slash and not cleaned
  up further. `spec.backupFrom` and `spec.backupTo` are set.

## Model

| member | source | states |
|---|---|---|
| `Cluster.BindingNameInjective` | controllers/storage/backup_controller.go:180 | namespaces with the same binding name are the same namespace |
| `Cluster.CronNameInjective` | controllers/storage/backup_controller.go:209 | Backups with the same CronJob name have the same name |
| `Predicates.EventFilter` | controllers/common/predicate.go:11-86 | the disjunction of the four predicates drops exactly the updates that keep the generation; their label and state tests have no effect |
| `Reconcile.BackupReconciler.Reconcile` | controllers/storage/backup_controller.go:108-245 | for every request, cluster and replies, the new cluster and the result are those of the call-by-call pass that the properties below are about |
| `Reconcile.BackupReconciler.EnsureServiceAccount` | controllers/storage/backup_controller.go:121-144 | stops the pass with requeue or error, or continues it at the ClusterRole even if the update failed |
| `Reconcile.BackupReconciler.EnsureClusterRole` | controllers/storage/backup_controller.go:151-172 | the same, continuing at the binding |
| `Reconcile.BackupReconciler.EnsureBinding` | controllers/storage/backup_controller.go:179-200 | the same, continuing at the CronJob |
| `Reconcile.BackupReconciler.EnsureCronJob` | controllers/storage/backup_controller.go:206-233 | the same for the CronJob, read in the request's namespace and written to default, except that a failed update stops the pass |
| `Reconcile.BackupReconciler.HandleFinalizer` | controllers/storage/backup_controller.go:361-395 | adds the finalizer to a live Backup; on a deleting one deletes the binding and then drops the finalizer, or fails before that |
| `Reconcile.BackupReconciler.DeleteExternalResources` | controllers/storage/backup_controller.go:398-413 | fails exactly if the binding is not there or the call fails; nothing but the binding changes |
| `Reconcile.CleanPassIsPass` | controllers/storage/backup_controller.go:108-245 | with every call answered, the call-by-call pass equals a closed form: create the first missing dependent and requeue, or rewrite all four and finish with the finalizer |
| `PassProperties.AbsentBackup` | controllers/storage/backup_controller.go:113-115 | a request for a Backup that is not there ends quietly with the cluster as it was |
| `PassProperties.FailedReadIsError` | controllers/storage/backup_controller.go:126-221 | a read that a pass reaches and that fails ends the pass with an error |
| `PassProperties.ResultWrittenOut` | controllers/storage/backup_controller.go:108-245 | under arbitrary replies, exactly when a pass asks for a requeue (it has created the first missing dependent) and when it is done (no Backup, or all four dependents found, the CronJob updated and the finalizer calls answered); all else is an error |
| `Quiescence.PassOnQueue` | controllers/storage/backup_controller.go:108-245 | a whole pass on the queue puts its request back exactly if its result is Requeue or Error, besides what its writes wake |
| `PassProperties.QuietPass` | controllers/storage/backup_controller.go:121-244 | under arbitrary failures, a pass on a live Backup ends without error or requeue if and only if it saw all four dependents and its essential calls were answered; the CronJob is then stored as rendered, the finalizer is set, other Backups are untouched, and each RBAC object is as before or as rendered |
| `PassProperties.CreatingPass` | controllers/storage/backup_controller.go:126-221 | an error-free pass with something missing creates exactly one dependent, asks for a requeue and leaves all Backups alone |
| `PassProperties.Convergence` | controllers/storage/backup_controller.go:108-245 | from any cluster, a live Backup in default is done after one pass for each missing dependent and one more; then passes change nothing; all is as rendered if and only if the stored binding had the right role reference |
| `PassProperties.StoredCronJob` | pkg/template/cronjob_backup.go:5-37 | what a quiet pass leaves in default under the Backup's name, field by field: log level, log format, time zone, target and namespace of the Backup, the template's schedule and image, the account's name, the owner |
| `PassProperties.ConvergedWrittenOut` | pkg/template/clusterrolebinding_backup.go:4-17 | the other dependents after convergence, field by field: the account owned by the Backup, the role's rules, the binding of that role to the account of the Backup's namespace |
| `PassProperties.JobRunsWithTheBoundAccount` | pkg/template/cronjob_backup.go:36-37 | the account with which the CronJob runs is the subject of the binding exactly if the Backup is in default |
| `PassProperties.FullPassIsFixpoint` | controllers/storage/backup_controller.go:138-244 | a pass that found everything leaves a cluster that the next pass does not change |
| `PassProperties.Release` | controllers/storage/backup_controller.go:375-391 | from any cluster, so after any crash, a deleting Backup in default loses our finalizer within one pass for each missing dependent and one more, is gone if and only if it had no other finalizer, and the binding is gone |
| `PassProperties.NoEarlyRelease` | controllers/storage/backup_controller.go:235-242 | before that last pass no Backup changes |
| `PassProperties.CronJobRunsItsOwnBackup` | pkg/template/cronjob_backup.go:24-28 | the CronJob left by a quiet pass names its own Backup to horusctl if and only if Backup and backed-up resource have the same name |
| `Interleaving.PassAsRun` | controllers/storage/backup_controller.go:108-245 | every pass under every reply is a run of the one-call-a-step machine, ending in the same cluster |
| `Interleaving.CallWrites` | controllers/storage/backup_controller.go:113-240 | which calls write Backups and bindings, and how; all others leave both alone |
| `Interleaving.NoOrphanBinding` | controllers/storage/backup_controller.go:179-242 | over every run with crashes, failures and other writers, in which Backups are deleted only with our finalizer as their only one, a namespace has a binding only while it has a Backup |
| `Interleaving.DeletedTooEarly` | controllers/storage/backup_controller.go:235-242 | a run that deletes a Backup without our finalizer and leaves its binding behind |
| `Interleaving.DeletedWithForeignFinalizer` | controllers/storage/backup_controller.go:375-391 | a run that deletes a Backup with a second finalizer: a later pass recreates the binding and it stays |
| `Interleaving.ReleaseOnlyAfterDelete` | controllers/storage/backup_controller.go:377-389 | in every run, a Backup loses our finalizer only in a pass on it that has successfully deleted the binding and made no call since |
| `Interleaving.FailedDeleteKeepsFinalizer` | controllers/storage/backup_controller.go:379-383 | a failed delete of the binding ends the pass with all Backups as they were |
| `Interleaving.ForeignNamespaceNeverFinalizes` | controllers/storage/backup_controller.go:206-242 | outside default, unless somebody else puts a CronJob there, no run ever reaches the CronJob update or the finalizer |
| `Interleaving.ForeignNamespaceLeaksBinding` | controllers/storage/backup_controller.go:398-413 | there a binding, once created, stays unless somebody else deletes it |
| `WorkQueue.ActionsAreMoves` | controllers/storage/backup_controller.go:108-262 | every step of worker and collector is a move of the one-call-a-step machine, with the call answered or as part of the environment |
| `WorkQueue.WokenWrittenOut` | controllers/storage/backup_controller.go:248-262 | who is queued by a write: a Backup that appears, disappears or changes its generation, and the owner before or after of an account or CronJob that does so |
| `WorkQueue.DeadOwnerWrittenOut` | controllers/storage/backup_controller.go:318 | when the collector may take an account: its owner is gone, also if another Backup has the name by now |
| `Quiescence.AccountUpdatesWakeNobody` | controllers/common/predicate.go:55-62 | rewriting ServiceAccounts, owner included, puts no Backup into the queue |
| `Quiescence.StepDropsRank` | controllers/storage/backup_controller.go:108-262 | with all Backups in default, whatever their finalizers, every taking of a request, every call of every pass and every garbage collection, also between two calls, lowers the rank |
| `Quiescence.ExecutionsAreBounded` | controllers/storage/backup_controller.go:108-262 | no execution has more steps than the rank of its first state, and the premise is kept |
| `Quiescence.ReachesRest` | controllers/storage/backup_controller.go:108-262 | every state has an execution that ends in a quiescent one, and one without the collector that empties the queue |
| `Quiescence.QuiescentMeansIdle` | controllers/storage/backup_controller.go:248-262 | quiescent means an idle worker, an empty queue and no object with a dead owner |
| `Confluence.CallStaysOnTrack` | controllers/storage/backup_controller.go:179-233 | from any cluster with live Backups in default, every call of a pass moves each object only towards the state determined by the first cluster, leaves every other Backup with what it has, since shared objects render independently of the Backup, and a quiet end leaves its own Backup with all but possibly the account |
| `Confluence.CollectionStaysOnTrack` | controllers/storage/backup_controller.go:211-230 | a garbage collection between any two calls keeps the same invariant: it takes nothing that a pass has written |
| `Confluence.CallKeepsAccount` | controllers/storage/backup_controller.go:126-144 | at every moment the account is written, or nobody has come past it, or everybody is going to look for it, or one pass has lost it and has found all the rest in place from the start |
| `Confluence.PassesCommute` | controllers/storage/backup_controller.go:108-245 | from any cluster with live Backups in default, dead owners and foreign bindings included, two executions without the collector that empty the queue end in the same cluster up to the ServiceAccount's owner, with everything every Backup needs |
| `Confluence.SameEnd` | controllers/storage/backup_controller.go:108-262 | two complete executions with the collector between any calls end in the same cluster up to the ServiceAccount's owner, the generation of CronJobs that had a dead owner at the start, and, from an exposed start only, the presence of the ServiceAccount; every Backup has the rest of what it needs |
| `Confluence.EarlyCollectionRestarts` | controllers/storage/backup_controller.go:211-220 | each such CronJob has a complete execution that leaves it at generation 1 |
| `Confluence.LateCollectionKeeps` | controllers/storage/backup_controller.go:226-233 | and a complete execution that leaves it at the generation its update gives it |
| `Confluence.GenerationsDiffer` | controllers/storage/backup_controller.go:228 | the two are equal exactly if its update leads to generation 1, that is, for an up-to-date CronJob at generation 1 (or a stale one at 0) |
| `LostAccount.AccountCanBeLost` | controllers/storage/backup_controller.go:126-144 | from every exposed start some complete execution, with every call answered, ends without the shared account |
| `LostAccount.LossIffExposed` | controllers/storage/backup_controller.go:126-144 | with a Backup around, some complete execution ends without the shared account if and only if the start is exposed |
| `SharedDeletion.DeletionWakes` | controllers/common/predicate.go:11-21 | deleting a Backup queues that Backup and no other |
| `SharedDeletion.DeletionStarvesSiblings` | controllers/storage/backup_controller.go:398-413 | whatever the other Backups are like, in every execution, collector included, that follows the deletion of a settled one to the end, the binding and the ServiceAccount are gone; the remaining Backups have all dependents if and only if there are none |
| `Retry.TrimMeans` | pkg/backup/deployment_findpvdir.go:86 | trimming cuts a blank start and a blank end and leaves no white space at the edges |
| `Retry.SpaceCharacters` | pkg/backup/deployment_findpvdir.go:79 | which of the first 256 characters are white space |
| `Retry.TrimOfBlankPrefix` | pkg/backup/deployment_findpvdir.go:79 | blank output in front of a text does not show once trimmed |
| `Retry.FindDirectory` | pkg/backup/deployment_findpvdir.go:74-86 | although all attempts append to one buffer, the result is that of the first attempt with output alone, of the first failing attempt, or empty |
| `Retry.FirstOutputDecides` | pkg/backup/deployment_findpvdir.go:75-84 | which attempt decides: the first that is not blank, if there is one |
| `Retry.FoundIsFirstSaid` | pkg/backup/deployment_findpvdir.go:75-86 | a directory is found exactly if one of twelve attempts is the first to print it, and it is empty exactly if all twelve succeed and print nothing but white space |
| `HelperNames.NamesCollide` | pkg/backup/util.go:18-23 | two helper names are equal if and only if the kinds are equal and node, dash and Backup name read the same |
| `HelperNames.NamesWrittenOut` | pkg/backup/backup.go:48-54 | the names of the four kinds, letter by letter |
| `HelperNames.NameDetermines` | pkg/backup/util.go:18-23 | for one Backup the name determines kind and node |
| `HelperNames.OnlyItsOwnKind` | pkg/backup/backup.go:87-94 | a helper's name is among the eight globals if and only if it is the one recorded for its own kind |
| `PvcMap.ResolvedEntry` | pkg/backup/backup.go:287-326 | a claim that was resolved has one entry: the fields of its last resolution, and the last find since then as its directory, else none |
| `PvcMap.UnresolvedEntry` | pkg/backup/backup.go:313-326 | a claim never resolved has an entry only if a search for it found something, and that entry holds nothing else |
| `PvcMap.LastPodWins` | pkg/backup/backup.go:270-306 | the entry's node, pod name and uid are those of the last pod in list order whose lookups of the claim succeeded, its volume and source what these lookups gave |
| `PvcMap.NeverResolved` | pkg/backup/backup.go:287-299 | a claim resolved by no pod ends with empty fields |
| `PvcMap.MapIsSound` | pkg/backup/backup.go:270-326 | no entry is torn: its fields were written together for one claim of one pod, and its directory was found by a search with exactly these fields |
| `PvcMap.WhenSearchErrs` | pkg/backup/deployment_findpvdir.go:46-79 | exactly when a search errs: no serving pod, no volume to read, or an attempt that fails before any has printed |
| `PvcMap.WhenLoopsErr` | pkg/backup/backup.go:270-326 | exactly when the loops err: a pod without node, uid or claims, or a search that errs for the entry of its turn; a failing lookup of a claim does not |
| `RunLog.ParseStorage` | pkg/backup/util.go:116-130 | the requested storages, each once, in the order of the fields of BackupTo, and no others |
| `RunLog.CoveredOnce` | pkg/backup/backup.go:142-153 | full batches for the first storages contain each pair of these exactly once and no pair of a later storage |
| `RunLog.InitialisedAtMostOnce` | pkg/backup/execute.go:56-65 | under the protocol successful inits of a repository number at most one, and none if it existed before |
| `RunLog.BackupsFollowInitialisation` | pkg/backup/execute.go:56-70 | under the protocol every restic backup is preceded by an initialisation, in this run or before it |
| `BackupRun.Process.FirstServing` | pkg/backup/util.go:49-61 | the pod that is running and not terminating and has none such before it, or none if there is none |
| `BackupRun.Process.FilterRunningPod` | pkg/backup/util.go:27-62 | applies the helper in the operator namespace under its name and on its node, and yields its first serving pod if and only if one serves; that helper is then the current one, and the three handlers end in the operator namespace |
| `BackupRun.Process.CreateHelper` | pkg/backup/deployment_backup2nfs.go:21-50 | the helper's name goes into the global of its kind before it is applied; a pod it yields belongs to a helper of this kind, on this node, with this name, that the log shows as created and listed |
| `BackupRun.Process.CreateFindpvdir` | pkg/backup/deployment_findpvdir.go:19-87 | the directory of the entry: the path of its own hostPath or local volume, else what its own node prints for its own pod and volume source, asked in a findpvdir helper on that node |
| `BackupRun.Process.ResolveClaims` | pkg/backup/backup.go:287-306 | the map after the first loop is the fold of its events; every lookup is made in the Backup's namespace |
| `BackupRun.Process.SearchClaims` | pkg/backup/backup.go:312-326 | the map after the second loop is the fold of its events, or the run fails with the first failing search |
| `BackupRun.Process.ListPods` | pkg/backup/backup.go:201-241 | points the handlers at the Backup's namespace and lists there; refuses other resources |
| `BackupRun.Process.ConstructPvcpvMap` | pkg/backup/backup.go:189-339 | the finished map is the fold of the whole trace, an empty one is an error; nothing is backed up or initialised |
| `BackupRun.Process.Execute` | pkg/backup/execute.go:22-73 | at most one restic backup, of the entry's own path on the entry's own node; succeeds if and only if pod, directory and volume name are there and check or init and backup succeed; crashes exactly without a pod past the guards |
| `BackupRun.Process.EnsureRepository` | pkg/backup/execute.go:54-65 | the repository is usable afterwards if and only if the check succeeds on an initialised one or init on an uninitialised one |
| `BackupRun.Process.CreateBackupHelper` | pkg/backup/deployment_backup2minio.go:18-79 | a pod for nfs, minio and sftp once secret and target are prepared, of a helper of the storage's own kind on the entry's node; no pod for other storages; exit exactly if a MinIO bucket cannot be made |
| `BackupRun.Process.BackupClaim` | pkg/backup/factory.go:18-102 | the outcome is the verdict on the answers, success, error, crash or exit; at most one restic backup, for this pair and aimed at its entry |
| `BackupRun.Process.BackupClaims` | pkg/backup/backup.go:144-151 | in any order of the map: every claim once, or a proper part and the outcome of a claim outside it |
| `BackupRun.Process.BackupAll` | pkg/backup/backup.go:142-153 | full batches for all storages, or for the first ones and a proper part for the one that failed, with the reason |
| `BackupRun.Process.Clean` | pkg/backup/backup.go:85-95 | deletes, in the operator namespace, the helpers named in the eight globals whose deletion works, and nothing else |
| `BackupRun.Process.Do` | pkg/backup/backup.go:83-157 | on every exit path: calls in their proper namespaces, commands in pods of helpers applied for them, the repository protocol, coverage with its reason, backups of map entries only and after all searches, a deletion of each recorded name, and the surviving helpers of the run: exactly those not recorded last for their kind or whose deletion failed, all after an exit |
| `RunProperties.ExactCoverage` | pkg/backup/backup.go:142-157 | after success every requested storage is nfs, minio or sftp, and every pair of a requested storage and a mapped claim was backed up exactly once, and nothing else |
| `RunProperties.CompletedPairs` | pkg/backup/backup.go:142-153 | on any outcome: exactly once for earlier storages, at most once for the current one, never for later ones |
| `RunProperties.VerdictWrittenOut` | pkg/backup/factory.go:28-99 | how an attempt ends, storage by storage: error for pvc, another resource or a workload that is not ready; crash without a helper past the guards; exit for a MinIO bucket; else success exactly if helper, location, check or init, and backup are all right |
| `RunProperties.WhenNotStarted` | pkg/backup/backup.go:106-136 | exactly when a run ends before its first storage |
| `RunProperties.NamespaceDiscipline` | pkg/backup/backup.go:201-206 | the namespace of every call of a run, kind by kind |
| `RunProperties.Culprit` | pkg/backup/factory.go:28-99 | a failed run has a claim outside the last batch whose verdict is the outcome of the run |
| `RunProperties.ReadyRunSucceeds` | pkg/backup/backup.go:142-157 | if every claim is located and every answer favourable, the run succeeds in every order of the map |
| `RunProperties.EveryBackupHitsItsData` | pkg/backup/execute.go:39-52 | every restic backup is for the node of one pod that mounts the claim; for a hostPath or local volume it reads /host-root/ and the volume's own path, otherwise /host-root/, what was printed first when asked on that node with that pod's uid and the volume's source, and the volume's name |
| `RunLog.CommandsAreProvided` | pkg/backup/util.go:27-62 | every command in the log follows the creation of a helper of its kind on its pod's node and a listing that has its pod as the first serving one of that helper, with no helper applied or deleted since |
| `RunProperties.EveryCommandRunsInItsHelper` | pkg/backup/factory.go:77-99 | that helper has the name of its kind, node and Backup, is in the operator namespace, and is still there when the command is issued |
| `RunProperties.EveryBackupIsRight` | pkg/backup/execute.go:39-70 | every restic backup of a run hits its data, in a helper named for the storage, node and Backup that the run applied on that node; a directory that had to be searched for was asked for earlier, with that pod's uid and that volume's source, in a findpvdir helper on the same node |
| `RunProperties.UnresolvedIsNeverBackedUp` | pkg/backup/execute.go:28-33 | a claim resolved by no pod is never backed up |
| `RunProperties.SuccessMeansLocated` | pkg/backup/execute.go:28-33 | a successful run with a storage has found a directory and a volume for every claim of its map |
| `RunProperties.CleanupIsCompleteOnOneNode` | pkg/backup/backup.go:85-95 | with all helpers on one node and their deletions working, no helper of the run survives |
| `RunProperties.CleanupLeavesOtherNodes` | pkg/backup/backup.go:85-95 | a helper survives if a helper of its kind was applied last on another node |
| `RunProperties.RunsDoNotInterfere` | pkg/backup/backup.go:85-95 | under any interleaving, a helper whose name the other run does not use is there if and only if it would be without that run |
| `RunProperties.TouchesOnlyCollisions` | pkg/backup/backup.go:85-95 | a run applies or deletes another run's helper name only through a helper of its own of the same kind whose node, dash and Backup name read the same, unless an earlier run of its process left that name in the global |
| `RunProperties.ConcurrentRunsAreIndependent` | pkg/backup/util.go:18-23 | under any interleaving of two whole runs, at every moment, a helper that collides with none of the other run is there if and only if it would be there at that moment without that run |
| `RunProperties.CollidingRunsInterfere` | pkg/backup/util.go:18-23 | if the last helper of its kind in a run that reaches its cleanup collides with a helper created by another run, the two whole runs have an interleaving with a moment at which that helper is gone although its own run has not deleted it |

## Left out

- The Restore, Clone, Migration and Traffic controllers and the webhooks: scaffolds without behaviour.
- main.go, the command line, logging, versions: setup only.
- The MinIO, SFTP, restic and Kubernetes clients: their answers are parameters.
- Template and YAML mechanics, and the ends of the controller process when they fail: the templates are constants and parse.
- Time: sleeps between retries, waiting for readiness, cost fields of the log, the updated-time annotation.
- `filepath.Clean`: paths are joined with a slash, so two spellings of one path count as different.
- A stale informer cache: a pass reads the cluster as it is.
- A nil Backup in theDeployName and a nil field in the volume of a hostPath or local claim: no caller has the first, the second is an invalid object.
- filterRunningPod2, getOrApplyDeployment, setPodTemplateAnnotations, createPassStdin, withNamespace: nothing calls them.

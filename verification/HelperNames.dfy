/** The helper Deployments: their names and their pods. */
module HelperNames {
  import opened Cluster

  /** The kinds for which a helper is ever created. */
  datatype Kind = Findpvdir | Backup2nfs | Backup2minio | Backup2sftp

  function Prefix(kind: Kind): string {
    match kind
    case Findpvdir => "findpvdir"
    case Backup2nfs => "backup-to-nfs"
    case Backup2minio => "backup-to-minio"
    case Backup2sftp => "backup-to-sftp"
  }

  /** theDeployName. */
  function DeployName(kind: Kind, node: string, backup: string): string {
    Prefix(kind) + "-" + node + "-" + backup
  }

  /** The four names, written out. */
  lemma NamesWrittenOut(node: string, backup: string)
    ensures DeployName(Findpvdir, node, backup) == "findpvdir-" + node + "-" + backup
    ensures DeployName(Backup2nfs, node, backup) == "backup-to-nfs-" + node + "-" + backup
    ensures DeployName(Backup2minio, node, backup) == "backup-to-minio-" + node + "-" + backup
    ensures DeployName(Backup2sftp, node, backup) == "backup-to-sftp-" + node + "-" + backup
  {
    assert "findpvdir" + "-" == "findpvdir-";
    assert "backup-to-nfs" + "-" == "backup-to-nfs-";
    assert "backup-to-minio" + "-" == "backup-to-minio-";
    assert "backup-to-sftp" + "-" == "backup-to-sftp-";
  }

  /** What starts like a name of the kind. */
  predicate OfKind(kind: Kind, name: string) {
    Prefix(kind) + "-" <= name
  }

  lemma NameIsOfKind(kind: Kind, node: string, backup: string)
    ensures OfKind(kind, DeployName(kind, node, backup))
  {
    assert DeployName(kind, node, backup) == (Prefix(kind) + "-") + (node + "-" + backup);
  }

  /** No name is of two kinds, whatever node and Backup it was made from. */
  lemma KindIsUnique(k1: Kind, k2: Kind, name: string)
    requires OfKind(k1, name) && OfKind(k2, name)
    ensures k1 == k2
  {
    var p1, p2 := Prefix(k1) + "-", Prefix(k2) + "-";
    assert name[..|p1|] == p1 && name[..|p2|] == p2;
    assert forall i :: 0 <= i < |p1| && i < |p2| ==> p1[i] == name[i] == p2[i];
    assert p1[0] == p2[0] && (|p1| > 10 && |p2| > 10 ==> p1[10] == p2[10]);
  }

  /** Two helpers, of whatever runs, share a name exactly when they are of one
      kind and node, dash and Backup name read the same: the namespace of the
      Backup plays no part. */
  lemma NamesCollide(k1: Kind, n1: string, b1: string, k2: Kind, n2: string, b2: string)
    ensures DeployName(k1, n1, b1) == DeployName(k2, n2, b2) <==> k1 == k2 && n1 + "-" + b1 == n2 + "-" + b2
  {
    hide Prefix, OfKind;
    NameIsOfKind(k1, n1, b1);
    NameIsOfKind(k2, n2, b2);
    var d1, d2 := DeployName(k1, n1, b1), DeployName(k2, n2, b2);
    assert d1 == (Prefix(k1) + "-") + (n1 + "-" + b1);
    assert d2 == (Prefix(k2) + "-") + (n2 + "-" + b2);
    if d1 == d2 {
      KindIsUnique(k1, k2, d1);
      assert n1 + "-" + b1 == d1[|Prefix(k1)| + 1..];
      assert n2 + "-" + b2 == d2[|Prefix(k2)| + 1..];
    }
  }

  /** Within the runs of one Backup a name determines kind and node. */
  lemma NameDetermines(k1: Kind, n1: string, k2: Kind, n2: string, backup: string)
    requires DeployName(k1, n1, backup) == DeployName(k2, n2, backup)
    ensures k1 == k2 && n1 == n2
  {
    NamesCollide(k1, n1, backup, k2, n2, backup);
    var t1, t2 := n1 + "-" + backup, n2 + "-" + backup;
    assert |t1| == |t2|;
    assert n1 == t1[..|n1|] && n2 == t2[..|n1|];
  }

  // ---- pods --------------------------------------------------------------------------

  datatype HelperPod = HelperPod(name: string, terminating: bool, running: bool)

  predicate Serving(p: HelperPod) {
    !p.terminating && p.running
  }

  /** The pod that commands are executed in: the first that serves. */
  function FirstPod(pods: seq<HelperPod>): Option<HelperPod> {
    if pods == [] then None else if Serving(pods[0]) then Some(pods[0]) else FirstPod(pods[1..])
  }

  lemma {:induction false} FirstPodIsFirst(pods: seq<HelperPod>, i: nat)
    requires i <= |pods| && forall j :: 0 <= j < i ==> !Serving(pods[j])
    requires i < |pods| ==> Serving(pods[i])
    ensures FirstPod(pods) == if i < |pods| then Some(pods[i]) else None
  {
    if i > 0 {
      assert !Serving(pods[0]);
      FirstPodIsFirst(pods[1..], i - 1);
    }
  }

  // ---- the globals that drive the cleanup ------------------------------------------

  /** The DeployName globals; nothing ever assigns the last four. */
  datatype Globals = Globals(
    findpvdir: string, nfs: string, minio: string, sftp: string,
    s3: string, cephfs: string, rclone: string, restserver: string)

  const NO_NAMES := Globals("", "", "", "", "", "", "", "")

  function NameOf(g: Globals, kind: Kind): string {
    match kind
    case Findpvdir => g.findpvdir
    case Backup2nfs => g.nfs
    case Backup2minio => g.minio
    case Backup2sftp => g.sftp
  }

  function Record(g: Globals, kind: Kind, name: string): Globals {
    match kind
    case Findpvdir => g.(findpvdir := name)
    case Backup2nfs => g.(nfs := name)
    case Backup2minio => g.(minio := name)
    case Backup2sftp => g.(sftp := name)
  }

  lemma RecordedName(g: Globals, kind: Kind, name: string)
    requires WellKinded(g) && OfKind(kind, name)
    ensures WellKinded(Record(g, kind, name))
    ensures forall k :: NameOf(Record(g, kind, name), k) == if k == kind then name else NameOf(g, k)
  {
    forall k
      ensures NameOf(Record(g, kind, name), k) == if k == kind then name else NameOf(g, k)
    {
    }
  }

  predicate WellKinded(g: Globals) {
    && g.s3 == g.cephfs == g.rclone == g.restserver == ""
    && (g.findpvdir == "" || OfKind(Findpvdir, g.findpvdir))
    && (g.nfs == "" || OfKind(Backup2nfs, g.nfs))
    && (g.minio == "" || OfKind(Backup2minio, g.minio))
    && (g.sftp == "" || OfKind(Backup2sftp, g.sftp))
  }

  function AllNames(g: Globals): set<string> {
    {g.findpvdir, g.nfs, g.minio, g.sftp, g.s3, g.cephfs, g.rclone, g.restserver}
  }

  lemma AllNamesSplit(g: Globals)
    ensures AllNames(g) == {g.findpvdir, g.nfs, g.minio, g.s3} + {g.cephfs, g.sftp, g.rclone, g.restserver}
  {
  }

  /** Deleting the recorded names hits a helper only through its own kind. */
  lemma OnlyItsOwnKind(g: Globals, kind: Kind, name: string)
    requires WellKinded(g) && OfKind(kind, name)
    ensures name in AllNames(g) <==> name == NameOf(g, kind)
  {
    assert name != "";
    forall other | name == NameOf(g, other)
      ensures other == kind
    {
      KindIsUnique(other, kind, name);
    }
    assert AllNames(g) ==
           {NameOf(g, Findpvdir), NameOf(g, Backup2nfs), NameOf(g, Backup2minio), NameOf(g, Backup2sftp), ""};
  }
}

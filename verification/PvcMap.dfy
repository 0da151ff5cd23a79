/** The map from claims to volume metadata that a backup run builds, as a fold
    over the events of the loops that build it. */
module PvcMap {
  import opened HelperNames
  import opened Retry

  const VOLUME_HOST_PATH := "hostPath"
  const VOLUME_LOCAL := "local"

  /** pvdataMeta. */
  datatype Meta = Meta(
    volumeSource: string, nodeName: string, podName: string, podUID: string, pvdir: string, pvname: string)

  /** What Go reads from a map at a missing key. */
  const ZERO := Meta("", "", "", "", "", "")

  type PvcpvMap = map<string, Meta>

  // ---- what the cluster answers --------------------------------------------------

  datatype Pod = Pod(name: string, node: Result<string>, uid: Result<string>, claims: Result<seq<string>>)

  /** GetPV of a claim and GetVolumeSource of a volume, at one point of the run. */
  datatype Lookup = Lookup(pv: string -> Result<string>, source: string -> Result<string>)

  /** Applying a helper and finding its pod.  A failed Apply may have created it. */
  datatype HelperReply = ApplyFailed(created: bool) | NotReady | NoPodList | Pods(pods: seq<HelperPod>)

  /** The command findpvdir as it is put to a pod: on which node, for which pod and
      which kind of volume. */
  datatype Query = Query(node: string, uid: string, source: string)

  /** What a search meets: its helper, the path of a hostPath or local volume, and
      the outputs of repeated queries. */
  datatype Search = Search(
    helper: HelperReply, pvPath: string -> Result<string>, output: Query -> nat -> Result<string>)

  /** Answers for the claims of each pod, indexed by pod and position of the claim. */
  datatype Answers = Answers(pods: seq<Pod>, lookup: (nat, nat) -> Lookup, search: (nat, nat) -> Search)

  predicate HasServingPod(reply: HelperReply) {
    reply.Pods? && exists i :: 0 <= i < |reply.pods| && Serving(reply.pods[i])
  }

  /** For these the volume itself says where it is. */
  predicate SelfLocated(meta: Meta) {
    meta.volumeSource == VOLUME_HOST_PATH || meta.volumeSource == VOLUME_LOCAL
  }

  /** The directory a search yields for an entry: the path of the entry's own
      volume, or what the entry's own node prints for the entry's own pod and
      volume source.  The directory already in the entry plays no part. */
  function Directory(search: Search, meta: Meta): Result<string> {
    if !HasServingPod(search.helper) then Err
    else if SelfLocated(meta) then search.pvPath(meta.pvname)
    else FirstOutput(search.output(Query(meta.nodeName, meta.podUID, meta.volumeSource)), 1)
  }

  // ---- the loops as a sequence of events --------------------------------------------

  datatype Event =
    | Resolved(pvc: string, meta: Meta)
    | Unresolved(pvc: string)
    | Searched(pvc: string, dir: string)

  function Entry(m: PvcpvMap, pvc: string): Meta {
    if pvc in m then m[pvc] else ZERO
  }

  function Apply(m: PvcpvMap, e: Event): PvcpvMap {
    match e
    case Resolved(pvc, meta) => m[pvc := meta]
    case Unresolved(_) => m
    case Searched(pvc, dir) => if dir == "" then m else m[pvc := Entry(m, pvc).(pvdir := dir)]
  }

  function Fold(t: seq<Event>): PvcpvMap {
    if t == [] then map[] else Apply(Fold(t[..|t| - 1]), t[|t| - 1])
  }

  predicate GoodPod(p: Pod) {
    p.node.Ok? && p.uid.Ok? && p.claims.Ok?
  }

  /** Both lookups for claim j of pod i succeed. */
  predicate Found(a: Answers, i: nat, j: nat)
    requires i < |a.pods| && GoodPod(a.pods[i]) && j < |a.pods[i].claims.value|
  {
    var l, pvc := a.lookup(i, j), a.pods[i].claims.value[j];
    l.pv(pvc).Ok? && l.source(l.pv(pvc).value).Ok?
  }

  /** The entry then written. */
  function Fresh(a: Answers, i: nat, j: nat): Meta
    requires i < |a.pods| && GoodPod(a.pods[i]) && j < |a.pods[i].claims.value| && Found(a, i, j)
  {
    var p, l, pvc := a.pods[i], a.lookup(i, j), a.pods[i].claims.value[j];
    Meta(l.source(l.pv(pvc).value).value, p.node.value, p.name, p.uid.value, "", l.pv(pvc).value)
  }

  function LookupEvent(a: Answers, i: nat, j: nat): Event
    requires i < |a.pods| && GoodPod(a.pods[i]) && j < |a.pods[i].claims.value|
  {
    var pvc := a.pods[i].claims.value[j];
    if Found(a, i, j) then Resolved(pvc, Fresh(a, i, j)) else Unresolved(pvc)
  }

  /** The first loop over the claims of pod i. */
  function Lookups(a: Answers, i: nat, j: nat): seq<Event>
    requires i < |a.pods| && GoodPod(a.pods[i]) && j <= |a.pods[i].claims.value|
  {
    if j == 0 then [] else Lookups(a, i, j - 1) + [LookupEvent(a, i, j - 1)]
  }

  /** The second loop, which an error ends together with the whole run. */
  function Searches(t: seq<Event>, a: Answers, i: nat, j: nat): Result<seq<Event>>
    requires i < |a.pods| && GoodPod(a.pods[i]) && j <= |a.pods[i].claims.value|
    decreases j
  {
    if j == 0 then Ok(t) else
    var before := Searches(t, a, i, j - 1);
    if before.Err? then Err else
    var pvc := a.pods[i].claims.value[j - 1];
    var dir := Directory(a.search(i, j - 1), Entry(Fold(before.value), pvc));
    if dir.Err? then Err else Ok(before.value + [Searched(pvc, dir.value)])
  }

  function Trace(a: Answers, n: nat): Result<seq<Event>>
    requires n <= |a.pods|
  {
    if n == 0 then Ok([]) else
    var before := Trace(a, n - 1);
    if before.Err? || !GoodPod(a.pods[n - 1]) then Err else
    var claims := |a.pods[n - 1].claims.value|;
    Searches(before.value + Lookups(a, n - 1, claims), a, n - 1, claims)
  }

  lemma LoopsStart(t: seq<Event>, a: Answers, i: nat)
    requires i < |a.pods| && GoodPod(a.pods[i])
    ensures t + Lookups(a, i, 0) == t && Searches(t, a, i, 0) == Ok(t)
  {
  }

  lemma FoldAppend(t: seq<Event>, e: Event)
    ensures Fold(t + [e]) == Apply(Fold(t), e)
  {
    assert (t + [e])[..|t|] == t;
  }

  // ---- what the map holds -------------------------------------------------------------

  predicate Resolves(e: Event, pvc: string) {
    e.Resolved? && e.pvc == pvc
  }

  predicate Finds(e: Event, pvc: string) {
    e.Searched? && e.pvc == pvc && e.dir != ""
  }

  /** Event r is the last to resolve pvc. */
  ghost predicate LastResolution(t: seq<Event>, pvc: string, r: int) {
    0 <= r < |t| && Resolves(t[r], pvc) && forall i :: r < i < |t| ==> !Resolves(t[i], pvc)
  }

  /** dir is what the last fruitful search for pvc after event r found, if any. */
  ghost predicate LatestFind(t: seq<Event>, pvc: string, r: int, dir: string) {
    || (dir == "" && forall i :: r < i < |t| && 0 <= i ==> !Finds(t[i], pvc))
    || exists f :: r < f < |t| && 0 <= f && t[f] == Searched(pvc, dir) && dir != ""
                   && forall i :: f < i < |t| ==> !Finds(t[i], pvc)
  }

  /** Map semantics, over any sequence of events.  A claim that was ever resolved
      has an entry: the fields of its last resolution, and as directory the last
      find since then. */
  lemma {:induction false} ResolvedEntry(t: seq<Event>, pvc: string, r: int)
    requires LastResolution(t, pvc, r) && t[r].meta.pvdir == ""
    ensures pvc in Fold(t) && Fold(t)[pvc].(pvdir := "") == t[r].meta
    ensures LatestFind(t, pvc, r, Fold(t)[pvc].pvdir)
  {
    var n := |t| - 1;
    var t', e := t[..n], t[n];
    assert t == t' + [e];
    if r < n {
      assert LastResolution(t', pvc, r);
      ResolvedEntry(t', pvc, r);
      FindStep(t', e, pvc, r, Fold(t')[pvc].pvdir);
      assert !Resolves(e, pvc);
    }
  }

  /** A claim never resolved has an entry only if a search for it found
      something, and that entry has nothing but a directory. */
  lemma {:induction false} UnresolvedEntry(t: seq<Event>, pvc: string)
    requires forall i :: 0 <= i < |t| ==> !Resolves(t[i], pvc)
    ensures LatestFind(t, pvc, -1, Entry(Fold(t), pvc).pvdir)
    ensures pvc in Fold(t) <==> Entry(Fold(t), pvc).pvdir != ""
    ensures Entry(Fold(t), pvc).(pvdir := "") == ZERO
  {
    if t != [] {
      var n := |t| - 1;
      var t', e := t[..n], t[n];
      assert t == t' + [e];
      assert !Resolves(t[n], pvc);
      UnresolvedEntry(t', pvc);
      FindStep(t', e, pvc, -1, Entry(Fold(t'), pvc).pvdir);
    }
  }

  lemma FindStep(t: seq<Event>, e: Event, pvc: string, r: int, dir: string)
    requires -1 <= r < |t| && LatestFind(t, pvc, r, dir)
    ensures LatestFind(t + [e], pvc, r, if Finds(e, pvc) then e.dir else dir)
  {
    var t' := t + [e];
    if Finds(e, pvc) {
      assert t'[|t|] == Searched(pvc, e.dir);
    } else if f :| r < f < |t| && 0 <= f && t[f] == Searched(pvc, dir) && dir != ""
                   && forall i :: f < i < |t| ==> !Finds(t[i], pvc) {
      assert t'[f] == Searched(pvc, dir);
    }
  }

  // ---- when the loops end with an error ------------------------------------------------

  /** A search errs without a serving pod of its helper, if the volume cannot be
      read, or if an attempt fails before any has printed. */
  lemma WhenSearchErrs(search: Search, meta: Meta)
    ensures Directory(search, meta).Err? <==>
            || !search.helper.Pods?
            || (forall p | p in search.helper.pods :: p.terminating || !p.running)
            || (if meta.volumeSource == "hostPath" || meta.volumeSource == "local" then
                  search.pvPath(meta.pvname).Err?
                else
                  var asked := Query(node := meta.nodeName, uid := meta.podUID, source := meta.volumeSource);
                  exists n: nat :: FirstFails(search.output(asked), n))
  {
    var output := search.output(Query(meta.nodeName, meta.podUID, meta.volumeSource));
    var i := FirstLoud(output, 1);
    FirstOutputDecides(output, 1, i);
    if i <= 12 && output(i).Err? {
      assert FirstFails(output, i);
    }
    assert forall n: nat :: FirstFails(output, n) ==> n == i;
  }

  ghost predicate FirstFails(output: nat -> Result<string>, n: nat) {
    && 1 <= n <= 12 && output(n).Err?
    && forall i :: 1 <= i < n ==> output(i).Ok? && Blank(output(i).value)
  }

  /** The search for claim j of pod i errs, for the entry that is there when its
      turn comes. */
  ghost predicate SearchErrs(t: seq<Event>, a: Answers, i: nat, j: nat) {
    && i < |a.pods| && GoodPod(a.pods[i]) && j < |a.pods[i].claims.value|
    && Searches(t, a, i, j).Ok?
    && Directory(a.search(i, j), Entry(Fold(Searches(t, a, i, j).value), a.pods[i].claims.value[j])).Err?
  }

  /** Pod i ends the loops: its node, uid or claims are not to be had, or one of its
      searches errs. */
  ghost predicate Stops(a: Answers, i: nat) {
    && i < |a.pods| && Trace(a, i).Ok?
    && (a.pods[i].node.Err? || a.pods[i].uid.Err? || a.pods[i].claims.Err?
        || exists j: nat :: SearchErrs(Trace(a, i).value + Lookups(a, i, |a.pods[i].claims.value|), a, i, j))
  }

  /** The loops err exactly if some pod ends them.  A failing lookup of a claim's
      volume does not: the claim is skipped. */
  lemma {:induction false} WhenLoopsErr(a: Answers, n: nat)
    requires n <= |a.pods|
    ensures Trace(a, n).Err? <==> exists i: nat :: i < n && Stops(a, i)
  {
    hide Stops, Trace;
    if n == 0 {
      TraceStarts(a);
    } else {
      WhenLoopsErr(a, n - 1);
      WhenPodErrs(a, n - 1);
    }
  }

  lemma TraceStarts(a: Answers)
    ensures Trace(a, 0) == Ok([])
  {
  }

  lemma WhenPodErrs(a: Answers, p: nat)
    requires p < |a.pods|
    ensures Trace(a, p + 1).Err? <==> Trace(a, p).Err? || Stops(a, p)
  {
    hide Searches, Lookups, Fold, Directory, SearchErrs;
    if Trace(a, p).Ok? && GoodPod(a.pods[p]) {
      var n := |a.pods[p].claims.value|;
      var t := Trace(a, p).value + Lookups(a, p, n);
      WhenSearchesErr(t, a, p, n);
      assert forall j: nat :: SearchErrs(t, a, p, j) ==> j < n by { OnlyItsClaims(t, a, p); }
    }
  }

  lemma OnlyItsClaims(t: seq<Event>, a: Answers, i: nat)
    requires i < |a.pods| && GoodPod(a.pods[i])
    ensures forall j: nat :: SearchErrs(t, a, i, j) ==> j < |a.pods[i].claims.value|
  {
  }

  lemma {:induction false} WhenSearchesErr(t: seq<Event>, a: Answers, i: nat, n: nat)
    requires i < |a.pods| && GoodPod(a.pods[i]) && n <= |a.pods[i].claims.value|
    ensures Searches(t, a, i, n).Err? <==> exists j: nat :: j < n && SearchErrs(t, a, i, j)
  {
    hide Directory, Fold, SearchErrs;
    if n > 0 {
      WhenSearchesErr(t, a, i, n - 1);
      WhenOneErrs(t, a, i, n - 1);
    } else {
      LoopsStart(t, a, i);
    }
  }

  lemma WhenOneErrs(t: seq<Event>, a: Answers, i: nat, j: nat)
    requires i < |a.pods| && GoodPod(a.pods[i]) && j < |a.pods[i].claims.value|
    ensures Searches(t, a, i, j + 1).Err? <==> Searches(t, a, i, j).Err? || SearchErrs(t, a, i, j)
  {
    hide Directory, Fold;
  }

  // ---- where the entries come from ----------------------------------------------------

  /** Claim j of pod i, one of the first n pods, is pvc. */
  predicate ClaimAt(a: Answers, n: nat, pvc: string, i: nat, j: nat) {
    i < n <= |a.pods| && GoodPod(a.pods[i]) && j < |a.pods[i].claims.value| && a.pods[i].claims.value[j] == pvc
  }

  /** And both its lookups succeeded. */
  predicate ResolvedAt(a: Answers, n: nat, pvc: string, i: nat, j: nat) {
    ClaimAt(a, n, pvc, i, j) && Found(a, i, j)
  }

  /** An entry is whole: all its fields but the directory were written together,
      for one claim of one pod; or the claim was never resolved. */
  ghost predicate Whole(a: Answers, n: nat, pvc: string, meta: Meta) {
    || meta.(pvdir := "") == ZERO
    || exists i: nat, j: nat :: ResolvedAt(a, n, pvc, i, j) && meta.(pvdir := "") == Fresh(a, i, j)
  }

  /** Its directory was found by a search made for this very entry. */
  ghost predicate Sought(a: Answers, n: nat, pvc: string, meta: Meta) {
    meta.pvdir == "" || exists i: nat, j: nat ::
      ClaimAt(a, n, pvc, i, j) && Directory(a.search(i, j), meta) == Ok(meta.pvdir)
  }

  ghost predicate Sound(a: Answers, n: nat, m: PvcpvMap) {
    forall pvc | pvc in m :: Whole(a, n, pvc, m[pvc]) && Sought(a, n, pvc, m[pvc])
  }

  lemma SoundLater(a: Answers, n: nat, n': nat, m: PvcpvMap)
    requires Sound(a, n, m) && n <= n' <= |a.pods|
    ensures Sound(a, n', m)
  {
    forall pvc | pvc in m
      ensures Whole(a, n', pvc, m[pvc]) && Sought(a, n', pvc, m[pvc])
    {
      assert Whole(a, n, pvc, m[pvc]) && Sought(a, n, pvc, m[pvc]);
      if i: nat, j: nat :| ResolvedAt(a, n, pvc, i, j) && m[pvc].(pvdir := "") == Fresh(a, i, j) {
        assert ResolvedAt(a, n', pvc, i, j);
      }
      if i: nat, j: nat :| ClaimAt(a, n, pvc, i, j) && Directory(a.search(i, j), m[pvc]) == Ok(m[pvc].pvdir) {
        assert ClaimAt(a, n', pvc, i, j);
      }
    }
  }

  lemma SoundUpdate(a: Answers, n: nat, m: PvcpvMap, pvc: string, meta: Meta)
    requires Sound(a, n, m) && Whole(a, n, pvc, meta) && Sought(a, n, pvc, meta)
    ensures Sound(a, n, m[pvc := meta])
  {
  }

  lemma FreshIsWhole(a: Answers, i: nat, j: nat)
    requires i < |a.pods| && GoodPod(a.pods[i]) && j < |a.pods[i].claims.value| && Found(a, i, j)
    ensures Whole(a, i + 1, a.pods[i].claims.value[j], Fresh(a, i, j))
    ensures Sought(a, i + 1, a.pods[i].claims.value[j], Fresh(a, i, j))
  {
    assert ResolvedAt(a, i + 1, a.pods[i].claims.value[j], i, j);
  }

  lemma {:induction false} LookupsAreSound(t: seq<Event>, a: Answers, i: nat, j: nat)
    requires i < |a.pods| && GoodPod(a.pods[i]) && j <= |a.pods[i].claims.value|
    requires Sound(a, i + 1, Fold(t))
    ensures Sound(a, i + 1, Fold(t + Lookups(a, i, j)))
  {
    hide Fold, Sound;
    if j == 0 {
      assert t + [] == t;
    } else {
      LookupsAreSound(t, a, i, j - 1);
      var t', e := t + Lookups(a, i, j - 1), LookupEvent(a, i, j - 1);
      assert t + Lookups(a, i, j) == t' + [e];
      FoldAppend(t', e);
      if e.Resolved? {
        FreshIsWhole(a, i, j - 1);
        SoundUpdate(a, i + 1, Fold(t'), e.pvc, e.meta);
      }
    }
  }

  lemma FoundIsSought(a: Answers, i: nat, j: nat, pvc: string, m: PvcpvMap, dir: string)
    requires ClaimAt(a, i + 1, pvc, i, j) && Sound(a, i + 1, m) && Directory(a.search(i, j), Entry(m, pvc)) == Ok(dir)
    ensures Whole(a, i + 1, pvc, Entry(m, pvc).(pvdir := dir)) && Sought(a, i + 1, pvc, Entry(m, pvc).(pvdir := dir))
  {
    var meta := Entry(m, pvc).(pvdir := dir);
    assert meta.(pvdir := "") == Entry(m, pvc).(pvdir := "");
    assert Directory(a.search(i, j), meta) == Ok(meta.pvdir);
    assert pvc in m ==> Whole(a, i + 1, pvc, m[pvc]);
  }

  lemma {:induction false} SearchesAreSound(t: seq<Event>, a: Answers, i: nat, j: nat)
    requires i < |a.pods| && GoodPod(a.pods[i]) && j <= |a.pods[i].claims.value|
    requires Sound(a, i + 1, Fold(t))
    ensures Searches(t, a, i, j).Ok? ==> Sound(a, i + 1, Fold(Searches(t, a, i, j).value))
  {
    hide Fold, Sound, Directory;
    if j > 0 && Searches(t, a, i, j).Ok? {
      SearchesAreSound(t, a, i, j - 1);
      var t', pvc := Searches(t, a, i, j - 1).value, a.pods[i].claims.value[j - 1];
      var entry := Entry(Fold(t'), pvc);
      var dir := Directory(a.search(i, j - 1), entry).value;
      FoldAppend(t', Searched(pvc, dir));
      if dir != "" {
        var meta := entry.(pvdir := dir);
        assert ClaimAt(a, i + 1, pvc, i, j - 1);
        FoundIsSought(a, i, j - 1, pvc, Fold(t'), dir);
        SoundUpdate(a, i + 1, Fold(t'), pvc, meta);
      }
    }
  }

  lemma EmptyIsSound(a: Answers)
    ensures Sound(a, 0, Fold([]))
  {
  }

  /** No entry of the finished map is torn, and every directory in it belongs to
      the node, pod, volume source and volume of its own entry. */
  lemma {:induction false} MapIsSound(a: Answers, n: nat)
    requires n <= |a.pods| && Trace(a, n).Ok?
    ensures Sound(a, n, Fold(Trace(a, n).value))
  {
    hide Sound, Fold, Lookups, Searches;
    if n == 0 {
      EmptyIsSound(a);
    } else {
      MapIsSound(a, n - 1);
      var t, claims := Trace(a, n - 1).value, |a.pods[n - 1].claims.value|;
      SoundLater(a, n - 1, n, Fold(t));
      LookupsAreSound(t, a, n - 1, claims);
      SearchesAreSound(t + Lookups(a, n - 1, claims), a, n - 1, claims);
    }
  }

  // ---- the last pod wins ----------------------------------------------------------------

  /** Position (i, j) is the last at which pvc is resolved. */
  ghost predicate LastResolvedAt(a: Answers, n: nat, pvc: string, i: nat, j: nat) {
    && ResolvedAt(a, n, pvc, i, j)
    && forall i': nat, j': nat | ResolvedAt(a, n, pvc, i', j') :: i' < i || (i' == i && j' <= j)
  }

  function Fields(m: PvcpvMap, pvc: string): Meta {
    Entry(m, pvc).(pvdir := "")
  }

  lemma {:induction false} SearchesKeepFields(t: seq<Event>, a: Answers, i: nat, j: nat, pvc: string)
    requires i < |a.pods| && GoodPod(a.pods[i]) && j <= |a.pods[i].claims.value|
    requires Searches(t, a, i, j).Ok?
    ensures var m := Fold(Searches(t, a, i, j).value);
            Fields(m, pvc) == Fields(Fold(t), pvc) && (pvc in Fold(t) ==> pvc in m)
  {
    if j > 0 {
      SearchesKeepFields(t, a, i, j - 1, pvc);
      var t', claim := Searches(t, a, i, j - 1).value, a.pods[i].claims.value[j - 1];
      FoldAppend(t', Searched(claim, Directory(a.search(i, j - 1), Entry(Fold(t'), claim)).value));
    }
  }

  lemma {:induction false} LookupsWriteFields(t: seq<Event>, a: Answers, n: nat, i: nat, j: nat, pvc: string, last: int)
    requires n == i + 1 <= |a.pods| && GoodPod(a.pods[i]) && j <= |a.pods[i].claims.value|
    requires -1 <= last < j && (last >= 0 ==> ResolvedAt(a, n, pvc, i, last))
    requires forall j' | last < j' < j :: !ResolvedAt(a, n, pvc, i, j')
    ensures var m := Fold(t + Lookups(a, i, j));
            && Fields(m, pvc) == (if last >= 0 then Fresh(a, i, last) else Fields(Fold(t), pvc))
            && (pvc in m <==> last >= 0 || pvc in Fold(t))
  {
    if j == 0 {
      assert t + [] == t;
    } else {
      var t', e := t + Lookups(a, i, j - 1), LookupEvent(a, i, j - 1);
      assert t + Lookups(a, i, j) == t' + [e];
      FoldAppend(t', e);
      if last < j - 1 {
        LookupsWriteFields(t, a, n, i, j - 1, pvc, last);
        assert !ResolvedAt(a, n, pvc, i, j - 1);
      }
    }
  }

  lemma {:induction false} LastResolutionStays(a: Answers, n: nat, pvc: string, i: nat, j: nat)
    requires n <= |a.pods| && Trace(a, n).Ok? && LastResolvedAt(a, n, pvc, i, j)
    ensures var m := Fold(Trace(a, n).value);
            pvc in m && Fields(m, pvc) == Fresh(a, i, j)
  {
    var t, p := Trace(a, n - 1).value, n - 1;
    var claims := |a.pods[p].claims.value|;
    if i == p {
      assert forall j' | j < j' < claims :: !ResolvedAt(a, n, pvc, p, j');
      LookupsWriteFields(t, a, n, p, claims, pvc, j);
    } else {
      assert LastResolvedAt(a, p, pvc, i, j) by {
        forall i': nat, j': nat | ResolvedAt(a, p, pvc, i', j')
          ensures i' < i || (i' == i && j' <= j)
        {
          assert ResolvedAt(a, n, pvc, i', j');
        }
      }
      LastResolutionStays(a, p, pvc, i, j);
      assert forall j' | -1 < j' < claims :: !ResolvedAt(a, n, pvc, p, j');
      LookupsWriteFields(t, a, n, p, claims, pvc, -1);
    }
    SearchesKeepFields(t + Lookups(a, p, claims), a, p, claims, pvc);
  }

  /** The pod fields of an entry come from the last pod in list order that
      mounts the claim and whose lookups of it succeeded: its name, its uid and its
      node, with the volume and the source that these lookups gave. */
  lemma LastPodWins(a: Answers, n: nat, pvc: string, i: nat, j: nat)
    requires n <= |a.pods| && Trace(a, n).Ok? && LastResolvedAt(a, n, pvc, i, j)
    ensures pvc in Fold(Trace(a, n).value)
    ensures var entry, pod, l := Fold(Trace(a, n).value)[pvc], a.pods[i], a.lookup(i, j);
            && pod.claims.Ok? && j < |pod.claims.value| && pod.claims.value[j] == pvc
            && Ok(entry.nodeName) == pod.node && Ok(entry.podUID) == pod.uid && entry.podName == pod.name
            && Ok(entry.pvname) == l.pv(pvc) && Ok(entry.volumeSource) == l.source(entry.pvname)
  {
    LastResolutionStays(a, n, pvc, i, j);
  }

  /** A claim that no pod resolved ends with an empty volume name. */
  lemma {:induction false} NeverResolved(a: Answers, n: nat, pvc: string)
    requires n <= |a.pods| && Trace(a, n).Ok?
    requires forall i: nat, j: nat :: !ResolvedAt(a, n, pvc, i, j)
    ensures Fields(Fold(Trace(a, n).value), pvc) == Meta("", "", "", "", "", "")
  {
    if n > 0 {
      var p := n - 1;
      forall i: nat, j: nat
        ensures !ResolvedAt(a, p, pvc, i, j)
      {
        assert !ResolvedAt(a, n, pvc, i, j);
      }
      NeverResolved(a, p, pvc);
      var t, claims := Trace(a, p).value, |a.pods[p].claims.value|;
      LookupsWriteFields(t, a, n, p, claims, pvc, -1);
      SearchesKeepFields(t + Lookups(a, p, claims), a, p, claims, pvc);
    }
  }
}

/** internal/docker/insights.go: container ids, inspect answers and the insights built from them. */
module Docker {
  import opened Sums
  import opened LogFiles

  // ---- ExtractContainerID ----

  function LastSlash(p: string): (k: int)
    ensures -1 <= k < |p|
    decreases |p|
  {
    if |p| == 0 then -1
    else if p[|p| - 1] == '/' then |p| - 1
    else LastSlash(p[..|p| - 1])
  }

  lemma {:induction false} LastSlashIsLast(p: string, k: nat)
    requires k < |p| && p[k] == '/' && forall j :: k < j < |p| ==> p[j] != '/'
    ensures LastSlash(p) == k
    decreases |p|
  {
    if k < |p| - 1 { LastSlashIsLast(p[..|p| - 1], k); }
  }

  /** filepath.Dir and filepath.Base on the clean paths that a walk or a glob yields. */
  function Dir(p: string): string {
    var k := LastSlash(p);
    if k < 0 then "." else if k == 0 then "/" else p[..k]
  }

  function Base(p: string): string {
    if p == "" then "." else if p == "/" then "/" else p[LastSlash(p) + 1..]
  }

  function ContainerId(path: Path): string { Base(Dir(path)) }

  /** The documented layout <root>/<id>/<file> yields the id. */
  lemma ContainerIdOfLayout(root: string, id: string, file: string)
    requires id != "" && '/' !in id && '/' !in file
    ensures ContainerId(root + "/" + id + "/" + file) == id
  {
    var dir := root + "/" + id;
    var path := dir + "/" + file;
    assert path == root + "/" + id + "/" + file;
    assert path[|dir|] == '/';
    forall j | |dir| < j < |path| ensures path[j] != '/' {
      assert path[j] == file[j - |dir| - 1];
    }
    LastSlashIsLast(path, |dir|);
    assert path[..|dir|] == dir;
    assert dir[|root|] == '/';
    forall j | |root| < j < |dir| ensures dir[j] != '/' {
      assert dir[j] == id[j - |root| - 1];
    }
    LastSlashIsLast(dir, |root|);
    assert dir[|root| + 1..] == id;
  }

  // ---- inspect answers ----

  /** InspectByID may fail; otherwise it carries what the agent reads from the answer. */
  datatype Inspect =
    | Failed
    | Found(name: string, image: string, imageId: string, status: string, restartCount: int)

  function TrimSlash(s: string): string {
    if |s| > 0 && s[0] == '/' then s[1..] else s
  }

  /** strings.TrimPrefix(s, "/"): one leading slash goes, and nothing else. */
  ghost predicate SlashTrimmed(s: string, trimmed: string) {
    if |s| > 0 && s[0] == '/' then s == "/" + trimmed else s == trimmed
  }

  lemma TrimSlashTrims(s: string)
    ensures SlashTrimmed(s, TrimSlash(s))
  {
    if |s| > 0 && s[0] == '/' { assert s == [s[0]] + s[1..]; }
  }

  /** Off the documented layout: no directory, or the root. */
  lemma ContainerIdOfOthers(file: string)
    requires '/' !in file
    ensures ContainerId(file) == "." && ContainerId("/" + file) == "/"
  {
    NoSlash(file);
    assert LastSlash("/" + file) == 0 by {
      forall j | 0 < j < |"/" + file| ensures ("/" + file)[j] != '/' { assert ("/" + file)[j] == file[j - 1]; }
      LastSlashIsLast("/" + file, 0);
    }
    NoSlash(".");
  }

  lemma {:induction false} NoSlash(p: string)
    requires '/' !in p
    ensures LastSlash(p) == -1
    decreases |p|
  {
    if |p| > 0 { NoSlash(p[..|p| - 1]); }
  }

  // ---- CollectInsights ----

  datatype Insight = Insight(
    id: string, name: string, image: string, imageId: string, status: string,
    restartCount: int, logSize: nat, isExcluded: bool)

  /** The fallback name is a slice of twelve characters, which a shorter id does not have. */
  predicate SliceFails(cid: string, answer: Inspect) { answer.Failed? && |cid| < 12 }

  function InsightOf(cid: string, answer: Inspect, excluded: seq<string>): Insight
    requires !SliceFails(cid, answer)
  {
    match answer
    case Failed => Insight(cid, cid[..12], "", "", "", 0, 0, false)
    case Found(name, image, imageId, status, restarts) =>
      Insight(cid, TrimSlash(name), image, imageId, status, restarts, 0, TrimSlash(name) in excluded)
  }

  /** What an insight says about the container with this id, given Docker's answer about it. */
  ghost predicate InsightTells(x: Insight, cid: string, answer: Inspect, excluded: seq<string>) {
    && x.id == cid
    && (answer.Found? ==>
          && SlashTrimmed(answer.name, x.name) && (x.isExcluded <==> x.name in excluded)
          && x.image == answer.image && x.imageId == answer.imageId && x.status == answer.status
          && x.restartCount == answer.restartCount)
    && (answer.Failed? ==>
          && 12 <= |cid| && x.name == cid[..12] && !x.isExcluded
          && x.image == "" && x.imageId == "" && x.status == "" && x.restartCount == 0)
  }

  lemma InsightOfTells(cid: string, answer: Inspect, excluded: seq<string>)
    requires !SliceFails(cid, answer)
    ensures InsightTells(InsightOf(cid, answer, excluded), cid, answer, excluded)
    ensures InsightOf(cid, answer, excluded).logSize == 0
  {
    if answer.Found? { TrimSlashTrims(answer.name); }
  }

  /** The list panics exactly on a failed answer for a short id; otherwise each insight tells what it should, in order. */
  lemma InsightsTell(cids: seq<string>, answers: seq<Inspect>, excluded: seq<string>)
    requires |cids| == |answers|
    ensures var insights := Insights(cids, answers, excluded);
      && (insights.None? <==> exists i :: 0 <= i < |cids| && answers[i].Failed? && |cids[i]| < 12)
      && (insights.Some? ==>
            && |insights.value| == |cids|
            && forall i :: 0 <= i < |cids| ==>
                 InsightTells(insights.value[i], cids[i], answers[i], excluded) && insights.value[i].logSize == 0)
  {
    if !AnySliceFails(cids, answers) {
      forall i | 0 <= i < |cids|
        ensures var x := InsightList(cids, answers, excluded)[i];
          InsightTells(x, cids[i], answers[i], excluded) && x.logSize == 0
      {
        assert !SliceFails(cids[i], answers[i]);
        InsightOfTells(cids[i], answers[i], excluded);
      }
      forall i | 0 <= i < |cids| ensures !(answers[i].Failed? && |cids[i]| < 12) {
        assert !SliceFails(cids[i], answers[i]);
      }
    } else {
      var i :| 0 <= i < |cids| && SliceFails(cids[i], answers[i]);
    }
  }

  predicate SlicesHold(cids: seq<string>, answers: seq<Inspect>, n: nat)
    requires n <= |cids| == |answers|
  {
    forall i :: 0 <= i < n ==> !SliceFails(cids[i], answers[i])
  }

  predicate AnySliceFails(cids: seq<string>, answers: seq<Inspect>)
    requires |cids| == |answers|
  {
    !SlicesHold(cids, answers, |cids|)
  }

  function InsightList(cids: seq<string>, answers: seq<Inspect>, excluded: seq<string>): (r: seq<Insight>)
    requires |cids| == |answers| && !AnySliceFails(cids, answers)
    ensures |r| == |cids|
    ensures forall i :: 0 <= i < |r| ==> r[i] == InsightOf(cids[i], answers[i], excluded)
  {
    seq(|cids|, i requires 0 <= i < |cids| && !SliceFails(cids[i], answers[i]) =>
      InsightOf(cids[i], answers[i], excluded))
  }

  /** One insight per path, in order; None when a slice panics. */
  function Insights(cids: seq<string>, answers: seq<Inspect>, excluded: seq<string>): Option<seq<Insight>>
    requires |cids| == |answers|
  {
    if AnySliceFails(cids, answers) then None else Some(InsightList(cids, answers, excluded))
  }

  function ContainerIds(paths: seq<Path>): (ids: seq<string>)
    ensures |ids| == |paths|
    ensures forall i :: 0 <= i < |paths| ==> ids[i] == ContainerId(paths[i])
  {
    seq(|paths|, i requires 0 <= i < |paths| => ContainerId(paths[i]))
  }

  /** excluded := make(map[string]bool); one entry per name */
  method ExcludedMap(names: seq<string>) returns (excluded: map<string, bool>)
    ensures forall n :: (n in excluded && excluded[n]) <==> n in names
  {
    excluded := map[];
    for k := 0 to |names|
      invariant forall n :: (n in excluded && excluded[n]) <==> n in names[..k]
    {
      excluded := excluded[names[k] := true];
    }
    assert names[..|names|] == names;
  }

  /** The body of the loop: an insight built from one answer. */
  method BuildInsight(cid: string, answer: Inspect, excluded: map<string, bool>, ghost names: seq<string>)
    returns (insight: Insight)
    requires !SliceFails(cid, answer)
    requires forall n :: (n in excluded && excluded[n]) <==> n in names
    ensures insight == InsightOf(cid, answer, names)
  {
    match answer
    case Failed =>
      insight := Insight(cid, cid[..12], "", "", "", 0, 0, false);
    case Found(name, image, imageId, status, restarts) =>
      var trimmed := TrimSlash(name);
      insight := Insight(cid, trimmed, image, imageId, status, restarts, 0, trimmed in excluded && excluded[trimmed]);
  }

  /** The loop of CollectInsights, over the ids of the log paths. */
  method CollectById(cids: seq<string>, answers: seq<Inspect>, excludedNames: seq<string>)
    returns (insights: Option<seq<Insight>>)
    requires |answers| == |cids|
    ensures insights == Insights(cids, answers, excludedNames)
    ensures insights.None? <==> exists i :: 0 <= i < |cids| && answers[i].Failed? && |cids[i]| < 12
    ensures insights.Some? ==>
      && |insights.value| == |cids|
      && forall i :: 0 <= i < |cids| ==>
           InsightTells(insights.value[i], cids[i], answers[i], excludedNames) && insights.value[i].logSize == 0
  {
    InsightsTell(cids, answers, excludedNames);
    var excluded := ExcludedMap(excludedNames);
    var got: seq<Insight> := [];
    for k := 0 to |cids|
      invariant |got| == k
      invariant SlicesHold(cids, answers, k)
      invariant forall i :: 0 <= i < k ==> got[i] == InsightOf(cids[i], answers[i], excludedNames)
    {
      if SliceFails(cids[k], answers[k]) {
        return None;
      }
      var insight := BuildInsight(cids[k], answers[k], excluded, excludedNames);
      got := got + [insight];
    }
    assert got == InsightList(cids, answers, excludedNames);
    return Some(got);
  }

  /** CollectInsights with nil storage, as Run calls it. */
  method CollectInsights(paths: seq<Path>, answers: seq<Inspect>, excludedNames: seq<string>)
    returns (insights: Option<seq<Insight>>)
    requires |answers| == |paths|
    ensures insights == Insights(ContainerIds(paths), answers, excludedNames)
    ensures insights.None? <==> exists i :: 0 <= i < |paths| && answers[i].Failed? && |ContainerId(paths[i])| < 12
    ensures insights.Some? ==>
      && |insights.value| == |paths|
      && forall i :: 0 <= i < |paths| ==>
           InsightTells(insights.value[i], ContainerId(paths[i]), answers[i], excludedNames) && insights.value[i].logSize == 0
  {
    var cids := ContainerIds(paths);
    insights := CollectById(cids, answers, excludedNames);
  }
}

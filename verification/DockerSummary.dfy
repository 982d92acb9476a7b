/** internal/docker/insights.go: CollectDockerSummary, over listings that may fail. */
module DockerSummary {
  import opened Sums

  datatype Mount = Mount(kind: string, name: string)

  datatype Container = Container(state: string, mounts: seq<Mount>)

  /** One image per element: how many tags it has. */
  datatype Image = Image(repoTags: nat)

  datatype Summary = Summary(
    images: nat, dangling: nat, volumes: nat, unusedVolumes: nat,
    total: nat, running: nat, stopped: nat, paused: nat)

  function Tagged(i: Image): int { if i.repoTags == 0 then 0 else 1 }

  function Dangling(i: Image): int { if i.repoTags == 0 then 1 else 0 }

  function InState(state: string): Container -> int {
    (c: Container) => if c.state == state then 1 else 0
  }

  function UsedBy(c: Container): set<string> { set m | m in c.mounts && m.kind == "volume" :: m.name }

  function Used(cs: seq<Container>): set<string> { set c, m | c in cs && m in c.mounts && m.kind == "volume" :: m.name }

  function Unused(volumes: nat, used: nat): nat { if volumes < used then 0 else volumes - used }

  /** CollectDockerSummary; a listing that fails is None and leaves its fields at zero. */
  method CollectDockerSummary(images: Option<seq<Image>>, volumes: Option<seq<string>>, containers: Option<seq<Container>>)
    returns (s: Summary)
    ensures images.Some? ==> s.images == Sum(images.value, Tagged) && s.dangling == Sum(images.value, Dangling)
    ensures images.Some? ==>
      && s.images == |set i: nat | i < |images.value| && images.value[i].repoTags > 0|
      && s.dangling == |set i: nat | i < |images.value| && images.value[i].repoTags == 0|
    ensures images.None? ==> s.images == 0 && s.dangling == 0
    ensures s.volumes == if volumes.Some? then |volumes.value| else 0
    ensures containers.Some? ==> var cs := containers.value;
      && s.total == |cs|
      && s.running == Sum(cs, InState("running")) && s.stopped == Sum(cs, InState("exited"))
      && s.paused == Sum(cs, InState("paused"))
      && s.unusedVolumes == Unused(s.volumes, |Used(cs)|)
    ensures containers.Some? ==> var cs := containers.value;
      && s.running == |set i: nat | i < |cs| && cs[i].state == "running"|
      && s.stopped == |set i: nat | i < |cs| && cs[i].state == "exited"|
      && s.paused == |set i: nat | i < |cs| && cs[i].state == "paused"|
    ensures containers.None? ==>
      s.total == 0 && s.running == 0 && s.stopped == 0 && s.paused == 0 && s.unusedVolumes == 0
  {
    s := Summary(0, 0, 0, 0, 0, 0, 0, 0);
    if images.Some? {
      var tagged, dangling := CountImages(images.value);
      ImageCounts(images.value);
      s := s.(images := tagged, dangling := dangling);
    }
    if volumes.Some? {
      s := s.(volumes := |volumes.value|);
    }
    if containers.Some? {
      var running, stopped, paused, used := CountContainers(containers.value);
      StateCount(containers.value, "running");
      StateCount(containers.value, "exited");
      StateCount(containers.value, "paused");
      var unused := s.volumes - |used|;
      if unused < 0 { unused := 0; }
      s := s.(total := |containers.value|, running := running, stopped := stopped, paused := paused,
        unusedVolumes := unused);
    }
  }

  lemma ImageCounts(images: seq<Image>)
    ensures Sum(images, Tagged) == |set i: nat | i < |images| && images[i].repoTags > 0|
    ensures Sum(images, Dangling) == |set i: nat | i < |images| && images[i].repoTags == 0|
  {
    SumCounts(images, Tagged, set i: nat | i < |images| && images[i].repoTags > 0);
    SumCounts(images, Dangling, set i: nat | i < |images| && images[i].repoTags == 0);
  }

  lemma StateCount(cs: seq<Container>, state: string)
    ensures Sum(cs, InState(state)) == |set i: nat | i < |cs| && cs[i].state == state|
  {
    SumCounts(cs, InState(state), set i: nat | i < |cs| && cs[i].state == state);
  }

  method CountImages(images: seq<Image>) returns (tagged: nat, dangling: nat)
    ensures tagged == Sum(images, Tagged) && dangling == Sum(images, Dangling)
  {
    tagged, dangling := 0, 0;
    for i := 0 to |images|
      invariant tagged == Sum(images[..i], Tagged) && dangling == Sum(images[..i], Dangling)
    {
      assert images[..i + 1] == images[..i] + [images[i]];
      SumSnoc(images[..i], images[i], Tagged);
      SumSnoc(images[..i], images[i], Dangling);
      if images[i].repoTags == 0 { dangling := dangling + 1; } else { tagged := tagged + 1; }
    }
    assert images[..|images|] == images;
  }

  method CountContainers(cs: seq<Container>) returns (running: nat, stopped: nat, paused: nat, used: set<string>)
    ensures running == Sum(cs, InState("running")) && stopped == Sum(cs, InState("exited"))
    ensures paused == Sum(cs, InState("paused")) && used == Used(cs)
  {
    running, stopped, paused, used := 0, 0, 0, {};
    for i := 0 to |cs|
      invariant running == Sum(cs[..i], InState("running")) && stopped == Sum(cs[..i], InState("exited"))
      invariant paused == Sum(cs[..i], InState("paused")) && used == Used(cs[..i])
    {
      assert cs[..i + 1] == cs[..i] + [cs[i]];
      SumSnoc(cs[..i], cs[i], InState("running"));
      SumSnoc(cs[..i], cs[i], InState("exited"));
      SumSnoc(cs[..i], cs[i], InState("paused"));
      if cs[i].state == "running" { running := running + 1; }
      else if cs[i].state == "exited" { stopped := stopped + 1; }
      else if cs[i].state == "paused" { paused := paused + 1; }
      var more := VolumesOf(cs[i]);
      UsedSnoc(cs[..i], cs[i]);
      used := used + more;
    }
    assert cs[..|cs|] == cs;
  }

  method VolumesOf(c: Container) returns (used: set<string>)
    ensures used == UsedBy(c)
  {
    used := {};
    for j := 0 to |c.mounts|
      invariant used == set m | m in c.mounts[..j] && m.kind == "volume" :: m.name
    {
      assert c.mounts[..j + 1] == c.mounts[..j] + [c.mounts[j]];
      if c.mounts[j].kind == "volume" { used := used + {c.mounts[j].name}; }
    }
    assert c.mounts[..|c.mounts|] == c.mounts;
  }

  lemma UsedSnoc(cs: seq<Container>, c: Container)
    ensures Used(cs + [c]) == Used(cs) + UsedBy(c)
  {
    forall n | n in UsedBy(c) ensures n in Used(cs + [c]) {
      var m :| m in c.mounts && m.kind == "volume" && m.name == n;
      assert c in cs + [c];
    }
  }

  // ---- what the numbers mean ----

  /** A volume is in use exactly when some container mounts it as a volume. */
  lemma UsedExactly(cs: seq<Container>, name: string)
    ensures name in Used(cs) <==>
      exists i, j :: 0 <= i < |cs| && 0 <= j < |cs[i].mounts| && cs[i].mounts[j] == Mount("volume", name)
  {
    if name in Used(cs) {
      var c, m :| c in cs && m in c.mounts && m.kind == "volume" && m.name == name;
      var i :| 0 <= i < |cs| && cs[i] == c;
      var j :| 0 <= j < |cs[i].mounts| && cs[i].mounts[j] == m;
    }
    if i, j :| 0 <= i < |cs| && 0 <= j < |cs[i].mounts| && cs[i].mounts[j] == Mount("volume", name) {
      assert cs[i] in cs && Mount("volume", name) in cs[i].mounts;
    }
  }

  /** Every listed image is tagged or dangling; no container is in two states. */
  lemma {:induction false} SummaryAddsUp(images: seq<Image>, cs: seq<Container>)
    ensures Sum(images, Tagged) + Sum(images, Dangling) == |images|
    ensures Sum(cs, InState("running")) + Sum(cs, InState("exited")) + Sum(cs, InState("paused")) <= |cs|
    decreases |images| + |cs|
  {
    if |images| > 0 {
      SummaryAddsUp(images[..|images| - 1], cs);
    } else if |cs| > 0 {
      SummaryAddsUp(images, cs[..|cs| - 1]);
    }
  }

  function Names(volumes: seq<string>): set<string> { set v | v in volumes }

  lemma {:induction false} DistinctCount(volumes: seq<string>)
    requires forall i, j :: 0 <= i < j < |volumes| ==> volumes[i] != volumes[j]
    ensures |Names(volumes)| == |volumes|
    decreases |volumes|
  {
    if |volumes| > 0 {
      var n := |volumes| - 1;
      DistinctCount(volumes[..n]);
      assert Names(volumes) == Names(volumes[..n]) + {volumes[n]};
      assert volumes[n] !in Names(volumes[..n]);
    }
  }

  /**
   With distinct listed volumes, the count reported as unused is the number of listed volumes
   that no container mounts exactly when every mounted volume is listed, or every listed one
   is mounted.
   */
  lemma UnusedIsExactly(volumes: seq<string>, cs: seq<Container>)
    requires forall i, j :: 0 <= i < j < |volumes| ==> volumes[i] != volumes[j]
    ensures Unused(|volumes|, |Used(cs)|) == |Names(volumes) - Used(cs)|
      <==> Used(cs) <= Names(volumes) || Names(volumes) <= Used(cs)
  {
    DistinctCount(volumes);
    SetCounts(Names(volumes), Used(cs));
  }

  lemma SetCounts(listed: set<string>, used: set<string>)
    ensures Unused(|listed|, |used|) == |listed - used| <==> used <= listed || listed <= used
  {
    var both := listed * used;
    assert listed == both + (listed - used);
    assert used == both + (used - listed);
    assert |listed| == |both| + |listed - used|;
    assert |used| == |both| + |used - listed|;
    assert |used - listed| == 0 <==> used <= listed;
    assert |listed - used| == 0 <==> listed <= used;
  }
}

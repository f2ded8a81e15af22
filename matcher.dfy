/**
 * `image_consensus` as the source runs it: a loop that collects the shapes
 * of the image, the visited flags, and the nested matching loop that forms
 * a group, marks its members and appends its rows before moving on. Each
 * method is proved to compute what the Matching module defines.
 */
module Matcher {
  import opened Values
  import opened Geometry
  import opened Frames
  import opened Matching

  /** The loop over the image's rows that fills `projects_shaply_objs`. */
  method CollectShapes(geo: Oracle, annotType: string, image: Value, df: seq<InstanceRow>) returns (r: Result<seq<Folder>>)
    ensures r == Collect(geo, annotType, image, df)
  {
    var folders: seq<Folder> := [];
    for i := 0 to |df|
      invariant Collect(geo, annotType, image, df[..i]) == Success(folders)
    {
      assert df[..i + 1][..i] == df[..i];
      var row := df[i];
      if row.first.imageName == image {
        var name := row.first.folderName;
        if Unhashable(name) {
          CollectFailsLater(geo, annotType, image, df, i + 1);
          return Failure(Malformed);
        }
        var found := FolderIndex(folders, name);
        var f := |folders|;
        if found.Some? {
          f := found.value;
        } else {
          folders := folders + [Folder(name, [])];
        }
        var shape := BuildShape(annotType, row.first.meta);
        if shape.Failure? {
          CollectFailsLater(geo, annotType, image, df, i + 1);
          return Failure(shape.error);
        }
        if geo.isValid(shape.value) {
          var e := Entry(shape.value, row.first.className, row.first.creatorEmail, row.attributes);
          folders := folders[f := Folder(name, folders[f].entries + [e])];
        }
      }
    }
    assert df[..|df|] == df;
    return Success(folders);
  }

  /** A failure among the first rows is the failure of all of them. */
  lemma {:induction false} CollectFailsLater(geo: Oracle, annotType: string, image: Value, df: seq<InstanceRow>, n: nat)
    requires n <= |df| && Collect(geo, annotType, image, df[..n]).Failure?
    ensures Collect(geo, annotType, image, df) == Collect(geo, annotType, image, df[..n])
    decreases |df| - n
  {
    if n < |df| {
      assert df[..n + 1][..n] == df[..n];
      CollectFailsLater(geo, annotType, image, df, n + 1);
    } else {
      assert df[..n] == df;
    }
  }

  /** The other-folder scan for the leader's best unvisited candidate (`max_score`, `max_inst_id`). */
  method BestCandidate(geo: Oracle, annotType: string, leader: Entry, entries: seq<Entry>, visited: seq<bool>)
    returns (r: Result<Best>)
    requires |entries| == |visited|
    ensures r == Scan(geo, annotType, leader, entries, visited, |entries|)
  {
    var best := Best(Floor(annotType), None);
    for k := 0 to |entries|
      invariant Scan(geo, annotType, leader, entries, visited, k) == Success(best)
    {
      if !visited[k] {
        var score := InstanceConsensus(geo, leader.shape, entries[k].shape);
        if score.Failure? {
          ScanFailsLater(geo, annotType, leader, entries, visited, k + 1);
          return Failure(score.error);
        }
        if Beats(score.value, best.bound) && entries[k].className == leader.className {
          best := Best(Above(score.value), Some(k));
        }
      }
    }
    return Success(best);
  }

  /** A failed scan of the first instances is the failure of the whole scan. */
  lemma {:induction false} ScanFailsLater(geo: Oracle, annotType: string, leader: Entry, entries: seq<Entry>,
                                          visited: seq<bool>, n: nat)
    requires n <= |entries| == |visited| && Scan(geo, annotType, leader, entries, visited, n).Failure?
    ensures Scan(geo, annotType, leader, entries, visited, |entries|) == Scan(geo, annotType, leader, entries, visited, n)
    decreases |entries| - n
  {
    if n < |entries| {
      ScanFailsLater(geo, annotType, leader, entries, visited, n + 1);
    }
  }

  /** Marks of folders below `o` leave the flags of folder `o` as they were. */
  lemma MarkOutside(visited: seq<seq<bool>>, folders: seq<Folder>, ms: seq<Member>, o: nat)
    requires Shaped(visited, folders) && o < |folders|
    requires forall k :: 0 <= k < |ms| ==> InRange(folders, ms[k]) && ms[k].folder < o
    ensures Mark(visited, folders, ms)[o] == visited[o]
  {
    var v := Mark(visited, folders, ms);
    forall i | 0 <= i < |v[o]| ensures v[o][i] == visited[o][i] {
      assert Member(o, i) !in ms;
    }
  }

  /**
   * One folder of the loop over `projects_shaply_objs` for a leader: its own
   * folder adds the leader, any other its best candidate if there is one;
   * the new member is marked visited at once.
   */
  method NextFolder(geo: Oracle, annotType: string, folders: seq<Folder>, visited0: seq<seq<bool>>, leader: Member,
                    o: nat, g: seq<Member>, visited: seq<seq<bool>>)
    returns (r: Result<seq<Member>>, next: seq<seq<bool>>)
    requires Shaped(visited0, folders) && InRange(folders, leader) && o < |folders|
    requires Gather(geo, annotType, folders, visited0, leader, o) == Success(g)
    requires visited == Mark(visited0, folders, g)
    ensures r == Gather(geo, annotType, folders, visited0, leader, o + 1)
    ensures r.Success? ==> next == Mark(visited0, folders, r.value)
  {
    MarkOutside(visited0, folders, g, o);
    next := visited;
    if o == leader.folder {
      MarkNext(visited0, folders, g, leader);
      next := visited[o := visited[o][leader.index := true]];
      return Success(g + [leader]), next;
    }
    var b := BestCandidate(geo, annotType, EntryOf(folders, leader), folders[o].entries, visited[o]);
    if b.Failure? {
      return Failure(b.error), next;
    }
    GatherOther(geo, annotType, folders, visited0, leader, o, g);
    if b.value.index.Some? {
      var m := Member(o, b.value.index.value);
      MarkNext(visited0, folders, g, m);
      next := visited[o := visited[o][m.index := true]];
      return Success(g + [m]), next;
    }
    return Success(g), next;
  }

  /** `max_instances` of a leader, built folder by folder from the flags as they stood when the leader was reached. */
  method MaxInstances(geo: Oracle, annotType: string, folders: seq<Folder>, visited0: seq<seq<bool>>, leader: Member)
    returns (r: Result<seq<Member>>, visited: seq<seq<bool>>)
    requires Shaped(visited0, folders) && InRange(folders, leader)
    ensures r == GroupOf(geo, annotType, folders, visited0, leader)
    ensures r.Success? ==> visited == Mark(visited0, folders, r.value)
  {
    var g: seq<Member> := [];
    visited := visited0;
    for o := 0 to |folders|
      invariant Gather(geo, annotType, folders, visited0, leader, o) == Success(g)
      invariant visited == Mark(visited0, folders, g)
    {
      var step;
      step, visited := NextFolder(geo, annotType, folders, visited0, leader, o, g, visited);
      if step.Failure? {
        GatherFailsLater(geo, annotType, folders, visited0, leader, o + 1);
        return Failure(step.error), visited;
      }
      g := step.value;
    }
    return Success(g), visited;
  }

  /** In another folder the group takes the scan's candidate, if any. */
  lemma GatherOther(geo: Oracle, annotType: string, folders: seq<Folder>, visited: seq<seq<bool>>, leader: Member,
                    o: nat, g: seq<Member>)
    requires Shaped(visited, folders) && InRange(folders, leader) && o < |folders| && o != leader.folder
    requires Gather(geo, annotType, folders, visited, leader, o) == Success(g)
    requires Scan(geo, annotType, EntryOf(folders, leader), folders[o].entries, visited[o], |folders[o].entries|).Success?
    ensures var b := Scan(geo, annotType, EntryOf(folders, leader), folders[o].entries, visited[o], |folders[o].entries|).value;
      Gather(geo, annotType, folders, visited, leader, o + 1) ==
        Success(if b.index.Some? then g + [Member(o, b.index.value)] else g)
  {
  }

  /** Marking one more member sets its flag in the flags so far. */
  lemma MarkNext(visited: seq<seq<bool>>, folders: seq<Folder>, ms: seq<Member>, m: Member)
    requires Shaped(visited, folders) && InRange(folders, m)
    requires forall k :: 0 <= k < |ms| ==> InRange(folders, ms[k])
    ensures var v := Mark(visited, folders, ms);
      Mark(visited, folders, ms + [m]) == v[m.folder := v[m.folder][m.index := true]]
  {
    assert (ms + [m])[..|ms|] == ms;
  }

  /** A failed group over the first folders is the failure of the whole group. */
  lemma {:induction false} GatherFailsLater(geo: Oracle, annotType: string, folders: seq<Folder>, visited: seq<seq<bool>>,
                                            leader: Member, n: nat)
    requires Shaped(visited, folders) && InRange(folders, leader) && n <= |folders|
    requires Gather(geo, annotType, folders, visited, leader, n).Failure?
    ensures GroupOf(geo, annotType, folders, visited, leader) == Gather(geo, annotType, folders, visited, leader, n)
    decreases |folders| - n
  {
    if n < |folders| {
      GatherFailsLater(geo, annotType, folders, visited, leader, n + 1);
    }
  }

  /** `proj_cons` of member `m`: the credits of its scores with the members of other folders. */
  method ProjectConsensus(geo: Oracle, folders: seq<Folder>, g: seq<Member>, m: Member) returns (r: Result<real>)
    requires InRange(folders, m) && forall k :: 0 <= k < |g| ==> InRange(folders, g[k])
    ensures r == Agreement(geo, folders, g, m, |g|)
  {
    var cons := 0.0;
    for k := 0 to |g|
      invariant Agreement(geo, folders, g, m, k) == Success(cons)
    {
      var o := g[k];
      if folders[m.folder].name != folders[o.folder].name {
        var score := InstanceConsensus(geo, EntryOf(folders, m).shape, EntryOf(folders, o).shape);
        if score.Failure? {
          AgreementFailsLater(geo, folders, g, m, k + 1);
          return Failure(score.error);
        }
        cons := cons + (if score.value <= 0.0 then 1.0 else score.value);
      }
    }
    return Success(cons);
  }

  lemma {:induction false} AgreementFailsLater(geo: Oracle, folders: seq<Folder>, g: seq<Member>, m: Member, n: nat)
    requires n <= |g| && InRange(folders, m) && forall k :: 0 <= k < |g| ==> InRange(folders, g[k])
    requires Agreement(geo, folders, g, m, n).Failure?
    ensures Agreement(geo, folders, g, m, |g|) == Agreement(geo, folders, g, m, n)
    decreases |g| - n
  {
    if n < |g| {
      AgreementFailsLater(geo, folders, g, m, n + 1);
    }
  }

  /** The rows `image_data` gains for one group: a lone member with score 0, else every member with its score. */
  method GroupData(geo: Oracle, folders: seq<Folder>, image: Value, projects: nat, g: seq<Member>, id: nat)
    returns (r: Result<seq<ConsensusRecord>>)
    requires forall k :: 0 <= k < |g| ==> InRange(folders, g[k])
    ensures r == GroupRecords(geo, folders, image, projects, g, id)
  {
    if |g| == 1 {
      return Success([RecordOf(geo, folders, image, id, g[0], 0.0)]);
    }
    var rows: seq<ConsensusRecord> := [];
    for j := 0 to |g|
      invariant MemberRecords(geo, folders, image, projects, g, id, j) == Success(rows)
    {
      var cons := ProjectConsensus(geo, folders, g, g[j]);
      if cons.Failure? {
        MemberRecordsFailsLater(geo, folders, image, projects, g, id, j + 1);
        return Failure(cons.error);
      }
      if projects - 1 == 0 {
        MemberRecordsFailsLater(geo, folders, image, projects, g, id, j + 1);
        return Failure(ZeroDivision);
      }
      MemberRecordsNext(geo, folders, image, projects, g, id, j, rows);
      rows := rows + [RecordOf(geo, folders, image, id, g[j], cons.value / (projects - 1) as real)];
    }
    return Success(rows);
  }

  lemma MemberRecordsNext(geo: Oracle, folders: seq<Folder>, image: Value, projects: nat, g: seq<Member>, id: nat,
                          j: nat, rows: seq<ConsensusRecord>)
    requires j < |g| && forall k :: 0 <= k < |g| ==> InRange(folders, g[k])
    requires MemberRecords(geo, folders, image, projects, g, id, j) == Success(rows)
    requires Agreement(geo, folders, g, g[j], |g|).Success? && projects != 1
    ensures MemberRecords(geo, folders, image, projects, g, id, j + 1) ==
      Success(rows + [RecordOf(geo, folders, image, id, g[j], Agreement(geo, folders, g, g[j], |g|).value / (projects - 1) as real)])
  {
  }

  lemma {:induction false} MemberRecordsFailsLater(geo: Oracle, folders: seq<Folder>, image: Value, projects: nat,
                                                   g: seq<Member>, id: nat, n: nat)
    requires n <= |g| && forall k :: 0 <= k < |g| ==> InRange(folders, g[k])
    requires MemberRecords(geo, folders, image, projects, g, id, n).Failure?
    ensures MemberRecords(geo, folders, image, projects, g, id, |g|) == MemberRecords(geo, folders, image, projects, g, id, n)
    decreases |g| - n
  {
    if n < |g| {
      MemberRecordsFailsLater(geo, folders, image, projects, g, id, n + 1);
    }
  }

  // ----- the matching loop -----

  /** The positions of the first folders are a prefix of the positions of more folders. */
  lemma {:induction false} PositionsPrefix(folders: seq<Folder>, a: nat, b: nat)
    requires a <= b <= |folders|
    ensures |Positions(folders, a)| <= |Positions(folders, b)|
    ensures Positions(folders, b)[..|Positions(folders, a)|] == Positions(folders, a)
    decreases b - a
  {
    if a < b {
      PositionsPrefix(folders, a, b - 1);
      var p, q := Positions(folders, b - 1), Positions(folders, b);
      assert q[..|p|] == p;
    }
  }

  /** Position `|Positions(folders, f)| + i` of the loop is instance `i` of folder `f`. */
  lemma PositionAt(folders: seq<Folder>, f: nat, i: nat)
    requires f < |folders| && i < |folders[f].entries|
    ensures |Positions(folders, f + 1)| == |Positions(folders, f)| + |folders[f].entries|
    ensures |Positions(folders, f)| + i < |Positions(folders, |folders|)|
    ensures Positions(folders, |folders|)[|Positions(folders, f)| + i] == Member(f, i)
  {
    PositionsPrefix(folders, f + 1, |folders|);
    var ps := Positions(folders, |folders|);
    var q := Positions(folders, f + 1);
    assert q[|Positions(folders, f)| + i] == Member(f, i);
    assert ps[|Positions(folders, f)| + i] == q[|Positions(folders, f)| + i];
  }

  /** A failed loop over the first positions is the failure of the whole loop. */
  lemma {:induction false} RunFailsLater(geo: Oracle, annotType: string, folders: seq<Folder>, ps: seq<Member>, n: nat)
    requires n <= |ps| && forall k :: 0 <= k < |ps| ==> InRange(folders, ps[k])
    requires Run(geo, annotType, folders, ps, n).Failure?
    ensures Run(geo, annotType, folders, ps, |ps|).Failure?
    decreases |ps| - n
  {
    if n < |ps| {
      RunFailsLater(geo, annotType, folders, ps, n + 1);
    }
  }

  /** The groups of the first positions are a prefix of the groups of more positions. */
  lemma {:induction false} RunGrows(geo: Oracle, annotType: string, folders: seq<Folder>, ps: seq<Member>, n: nat, m: nat)
    requires n <= m <= |ps| && forall k :: 0 <= k < |ps| ==> InRange(folders, ps[k])
    requires Run(geo, annotType, folders, ps, m).Success?
    ensures Run(geo, annotType, folders, ps, n).Success?
    ensures var a := Run(geo, annotType, folders, ps, n).value.groups;
      var b := Run(geo, annotType, folders, ps, m).value.groups;
      |a| <= |b| && b[..|a|] == a
    decreases m - n
  {
    if n < m {
      RunGrows(geo, annotType, folders, ps, n, m - 1);
      var a := Run(geo, annotType, folders, ps, n).value.groups;
      var c := Run(geo, annotType, folders, ps, m - 1).value.groups;
      var b := Run(geo, annotType, folders, ps, m).value.groups;
      assert b == c || b == c + [b[|c|]];
      assert b[..|c|] == c;
      assert b[..|a|] == c[..|a|];
    }
  }

  /** The rows of the first `n` groups depend on those groups only. */
  lemma {:induction false} EmitPrefix(geo: Oracle, folders: seq<Folder>, image: Value, projects: nat, gs: seq<Match>,
                                      hs: seq<Match>, n: nat)
    requires n <= |gs| && n <= |hs| && gs[..n] == hs[..n]
    requires GroupsInRange(folders, gs) && GroupsInRange(folders, hs)
    ensures Emit(geo, folders, image, projects, gs, n) == Emit(geo, folders, image, projects, hs, n)
    decreases n
  {
    if n > 0 {
      assert gs[..n - 1] == hs[..n - 1] by {
        assert gs[..n - 1] == gs[..n][..n - 1];
        assert hs[..n - 1] == hs[..n][..n - 1];
      }
      assert gs[n - 1] == gs[..n][n - 1] == hs[..n][n - 1] == hs[n - 1];
      EmitPrefix(geo, folders, image, projects, gs, hs, n - 1);
    }
  }

  /** Flags and groups `s` cannot end in rows: they failed to form, or one of their groups fails to score. */
  ghost predicate Fails(geo: Oracle, folders: seq<Folder>, image: Value, projects: nat, s: Result<State>) {
    || s.Failure?
    || (GroupsInRange(folders, s.value.groups)
        && Emit(geo, folders, image, projects, s.value.groups, |s.value.groups|).Failure?)
  }

  /** The matching of the image cannot end in rows. */
  ghost predicate Doomed(geo: Oracle, annotType: string, folders: seq<Folder>, image: Value, projects: nat) {
    Fails(geo, folders, image, projects, Matches(geo, annotType, folders))
  }

  /** Rows that fail for the first groups fail for more groups. */
  lemma {:induction false} EmitFailsLater(geo: Oracle, folders: seq<Folder>, image: Value, projects: nat, gs: seq<Match>, n: nat)
    requires n <= |gs| && GroupsInRange(folders, gs)
    requires Emit(geo, folders, image, projects, gs, n).Failure?
    ensures Emit(geo, folders, image, projects, gs, |gs|).Failure?
    decreases |gs| - n
  {
    if n < |gs| {
      EmitFailsLater(geo, folders, image, projects, gs, n + 1);
    }
  }

  /** A failure after the first positions dooms the whole matching. */
  lemma RunFailsOnward(geo: Oracle, annotType: string, folders: seq<Folder>, image: Value, projects: nat, n: nat)
    requires n <= |Positions(folders, |folders|)|
    requires Fails(geo, folders, image, projects, Run(geo, annotType, folders, Positions(folders, |folders|), n))
    ensures Doomed(geo, annotType, folders, image, projects)
  {
    var ps := Positions(folders, |folders|);
    var st := Matches(geo, annotType, folders);
    if Run(geo, annotType, folders, ps, n).Failure? {
      RunFailsLater(geo, annotType, folders, ps, n);
    } else if st.Success? {
      RunGrows(geo, annotType, folders, ps, n, |ps|);
      var gs := Run(geo, annotType, folders, ps, n).value.groups;
      var all := st.value.groups;
      MatchesPartition(geo, annotType, folders);
      EmitPrefix(geo, folders, image, projects, all, gs, |gs|);
      EmitFailsLater(geo, folders, image, projects, all, |gs|);
    }
  }

  /**
   * The matching loop has passed the first `n` positions with flags and
   * groups `st` and rows `out`.
   */
  ghost predicate Reached(geo: Oracle, annotType: string, folders: seq<Folder>, image: Value, projects: nat, n: nat,
                          st: State, out: seq<ConsensusRecord>) {
    && n <= |Positions(folders, |folders|)|
    && Run(geo, annotType, folders, Positions(folders, |folders|), n) == Success(st)
    && GroupsInRange(folders, st.groups)
    && Emit(geo, folders, image, projects, st.groups, |st.groups|) == Success(out)
  }

  /** An unvisited instance leads a group, which is marked, appended and scored. */
  method OpenGroup(geo: Oracle, annotType: string, folders: seq<Folder>, image: Value, projects: nat, st: State,
                   out: seq<ConsensusRecord>, m: Member)
    returns (r: Result<State>, rows: seq<ConsensusRecord>)
    requires Shaped(st.visited, folders) && InRange(folders, m) && !st.visited[m.folder][m.index]
    requires AllCollected(geo, annotType, folders)
    requires GroupsInRange(folders, st.groups)
    requires Emit(geo, folders, image, projects, st.groups, |st.groups|) == Success(out)
    ensures r.Success? ==> && r == Step(geo, annotType, folders, st, m)
                           && GroupsInRange(folders, r.value.groups)
                           && Emit(geo, folders, image, projects, r.value.groups, |r.value.groups|) == Success(rows)
    ensures r.Failure? ==> Fails(geo, folders, image, projects, Step(geo, annotType, folders, st, m))
    ensures r.Failure? ==> r.error == ZeroDivision
  {
    var g, marked := MaxInstances(geo, annotType, folders, st.visited, m);
    if g.Failure? {
      GatherError(geo, annotType, folders, st.visited, m, |folders|);
      return Failure(g.error), out;
    }
    r, rows := AppendGroup(geo, annotType, folders, image, projects, st, out, m, g.value, marked);
  }

  /** The group `g` the leader formed is appended and its rows are scored. */
  method AppendGroup(geo: Oracle, annotType: string, folders: seq<Folder>, image: Value, projects: nat, st: State,
                     out: seq<ConsensusRecord>, m: Member, g: seq<Member>, marked: seq<seq<bool>>)
    returns (r: Result<State>, rows: seq<ConsensusRecord>)
    requires Shaped(st.visited, folders) && InRange(folders, m) && !st.visited[m.folder][m.index]
    requires AllCollected(geo, annotType, folders)
    requires GroupsInRange(folders, st.groups)
    requires Emit(geo, folders, image, projects, st.groups, |st.groups|) == Success(out)
    requires GroupOf(geo, annotType, folders, st.visited, m) == Success(g)
    requires marked == Mark(st.visited, folders, g)
    ensures r.Success? ==> && r == Step(geo, annotType, folders, st, m)
                           && GroupsInRange(folders, r.value.groups)
                           && Emit(geo, folders, image, projects, r.value.groups, |r.value.groups|) == Success(rows)
    ensures r.Failure? ==> Fails(geo, folders, image, projects, Step(geo, annotType, folders, st, m))
    ensures r.Failure? ==> r.error == ZeroDivision
  {
    var next := st.groups + [Match(m, g)];
    GroupsAppend(folders, st.groups, Match(m, g));
    EmitNext(geo, folders, image, projects, st.groups, Match(m, g), out);
    var own := GroupData(geo, folders, image, projects, g, |st.groups|);
    if own.Failure? {
      GroupRecordsError(geo, annotType, folders, image, projects, g, |st.groups|);
      return Failure(own.error), out;
    }
    return Success(State(marked, next)), out + own.value;
  }

  /** One position of the matching loop: a visited instance is skipped, any other opens a group. */
  method Advance(geo: Oracle, annotType: string, folders: seq<Folder>, image: Value, projects: nat, ghost n: nat,
                 cur: State, out: seq<ConsensusRecord>, m: Member)
    returns (r: Result<State>, rows: seq<ConsensusRecord>)
    requires Reached(geo, annotType, folders, image, projects, n, cur, out)
    requires n < |Positions(folders, |folders|)| && Positions(folders, |folders|)[n] == m
    requires AllCollected(geo, annotType, folders)
    ensures r.Success? ==> Reached(geo, annotType, folders, image, projects, n + 1, r.value, rows)
    ensures r.Failure? ==> Doomed(geo, annotType, folders, image, projects) && r.error == ZeroDivision
  {
    ReachedAt(geo, annotType, folders, image, projects, n, cur, out, m);
    if cur.visited[m.folder][m.index] {
      return Success(cur), out;
    }
    r, rows := OpenGroup(geo, annotType, folders, image, projects, cur, out, m);
    if r.Failure? {
      OpenFailed(geo, annotType, folders, image, projects, n, cur, out, m);
    } else {
      Opened(geo, annotType, folders, image, projects, n, cur, out, m, r.value, rows);
    }
  }

  /** The loop over the instances of folder `f`: a visited instance is skipped, any other opens a group. */
  method VisitFolder(geo: Oracle, annotType: string, folders: seq<Folder>, image: Value, projects: nat, f: nat,
                     visited0: seq<seq<bool>>, groups0: seq<Match>, out0: seq<ConsensusRecord>)
    returns (r: Result<State>, rows: seq<ConsensusRecord>)
    requires f < |folders|
    requires Reached(geo, annotType, folders, image, projects, |Positions(folders, f)|, State(visited0, groups0), out0)
    requires AllCollected(geo, annotType, folders)
    ensures r.Success? ==> Reached(geo, annotType, folders, image, projects, |Positions(folders, f + 1)|, r.value, rows)
    ensures r.Failure? ==> Doomed(geo, annotType, folders, image, projects) && r.error == ZeroDivision
  {
    ghost var n := |Positions(folders, f)|;
    var cur, out := State(visited0, groups0), out0;
    for i := 0 to |folders[f].entries|
      invariant n == |Positions(folders, f)| + i
      invariant Reached(geo, annotType, folders, image, projects, n, cur, out)
    {
      PositionAt(folders, f, i);
      var st, rows := Advance(geo, annotType, folders, image, projects, n, cur, out, Member(f, i));
      if st.Failure? {
        return st, rows;
      }
      cur, out, n := st.value, rows, n + 1;
    }
    if |folders[f].entries| == 0 {
      assert Positions(folders, f + 1) == Positions(folders, f);
    } else {
      PositionAt(folders, f, 0);
    }
    return Success(cur), out;
  }

  /** The loop at one more position takes one more step. */
  lemma RunNext(geo: Oracle, annotType: string, folders: seq<Folder>, ps: seq<Member>, n: nat, st: State)
    requires n < |ps| && forall k :: 0 <= k < |ps| ==> InRange(folders, ps[k])
    requires Run(geo, annotType, folders, ps, n) == Success(st)
    ensures Shaped(st.visited, folders)
    ensures Run(geo, annotType, folders, ps, n + 1) == Step(geo, annotType, folders, st, ps[n])
  {
  }

  /** At a position the loop has reached, the flags have their shape and the loop takes one step. */
  lemma ReachedAt(geo: Oracle, annotType: string, folders: seq<Folder>, image: Value, projects: nat, n: nat,
                  st: State, out: seq<ConsensusRecord>, m: Member)
    requires Reached(geo, annotType, folders, image, projects, n, st, out)
    requires n < |Positions(folders, |folders|)| && Positions(folders, |folders|)[n] == m
    ensures Shaped(st.visited, folders) && InRange(folders, m)
    ensures st.visited[m.folder][m.index] ==> Reached(geo, annotType, folders, image, projects, n + 1, st, out)
  {
    RunNext(geo, annotType, folders, Positions(folders, |folders|), n, st);
  }

  /** A group that forms and scores takes the loop one position further. */
  lemma Opened(geo: Oracle, annotType: string, folders: seq<Folder>, image: Value, projects: nat, n: nat,
               st: State, out: seq<ConsensusRecord>, m: Member, next: State, rows: seq<ConsensusRecord>)
    requires Reached(geo, annotType, folders, image, projects, n, st, out)
    requires n < |Positions(folders, |folders|)| && Positions(folders, |folders|)[n] == m
    requires Shaped(st.visited, folders) && InRange(folders, m)
    requires Step(geo, annotType, folders, st, m) == Success(next)
    requires GroupsInRange(folders, next.groups)
    requires Emit(geo, folders, image, projects, next.groups, |next.groups|) == Success(rows)
    ensures Reached(geo, annotType, folders, image, projects, n + 1, next, rows)
  {
    RunNext(geo, annotType, folders, Positions(folders, |folders|), n, st);
  }

  /** A group that fails to form or to score dooms the matching. */
  lemma OpenFailed(geo: Oracle, annotType: string, folders: seq<Folder>, image: Value, projects: nat, n: nat,
                   st: State, out: seq<ConsensusRecord>, m: Member)
    requires Reached(geo, annotType, folders, image, projects, n, st, out)
    requires n < |Positions(folders, |folders|)| && Positions(folders, |folders|)[n] == m
    requires Shaped(st.visited, folders) && InRange(folders, m)
    requires Fails(geo, folders, image, projects, Step(geo, annotType, folders, st, m))
    ensures Doomed(geo, annotType, folders, image, projects)
  {
    RunNext(geo, annotType, folders, Positions(folders, |folders|), n, st);
    RunFailsOnward(geo, annotType, folders, image, projects, n + 1);
  }

  /** A group whose members are in range keeps the groups in range. */
  lemma GroupsAppend(folders: seq<Folder>, gs: seq<Match>, g: Match)
    requires GroupsInRange(folders, gs)
    requires forall k :: 0 <= k < |g.members| ==> InRange(folders, g.members[k])
    ensures GroupsInRange(folders, gs + [g])
  {
    var next := gs + [g];
    forall k, j | 0 <= k < |next| && 0 <= j < |next[k].members| ensures InRange(folders, next[k].members[j]) {
      if k < |gs| {
        assert next[k] == gs[k];
      }
    }
  }

  lemma EmitNext(geo: Oracle, folders: seq<Folder>, image: Value, projects: nat, gs: seq<Match>, g: Match,
                 out: seq<ConsensusRecord>)
    requires forall k :: 0 <= k < |g.members| ==> InRange(folders, g.members[k])
    requires GroupsInRange(folders, gs + [g])
    requires GroupsInRange(folders, gs) && Emit(geo, folders, image, projects, gs, |gs|) == Success(out)
    ensures var own := GroupRecords(geo, folders, image, projects, g.members, |gs|);
      && (own.Success? ==> Emit(geo, folders, image, projects, gs + [g], |gs| + 1) == Success(out + own.value))
      && (own.Failure? ==> Emit(geo, folders, image, projects, gs + [g], |gs| + 1).Failure?)
  {
    EmitPrefix(geo, folders, image, projects, gs + [g], gs, |gs|);
    assert (gs + [g])[|gs|] == g;
  }

  /** Flags of the right shape that are all clear are the initial flags. */
  lemma UnvisitedExact(folders: seq<Folder>, visited: seq<seq<bool>>)
    requires Shaped(visited, folders)
    requires forall k, i :: 0 <= k < |folders| && 0 <= i < |folders[k].entries| ==> !visited[k][i]
    ensures visited == Unvisited(folders)
  {
    var u := Unvisited(folders);
    forall k | 0 <= k < |folders| ensures visited[k] == u[k] {
      assert |visited[k]| == |u[k]|;
      forall i | 0 <= i < |u[k]| ensures visited[k][i] == u[k][i] {
        assert !u[k][i];
      }
    }
  }

  /** A doomed matching fails the image. */
  lemma DoomedFails(geo: Oracle, annotType: string, df: seq<InstanceRow>, image: Value)
    requires Collect(geo, annotType, image, df).Success?
    requires Doomed(geo, annotType, Collect(geo, annotType, image, df).value, image, |FolderNames(df)|)
    ensures ImageConsensus(geo, annotType, df, image).Failure?
  {
  }

  /**
   * `image_consensus`: it returns the rows the Matching module defines, and
   * fails exactly when those fail, with the same error.
   */
  method ImageConsensusLoop(geo: Oracle, annotType: string, df: seq<InstanceRow>, image: Value)
    returns (r: Result<seq<ConsensusRecord>>)
    ensures r == ImageConsensus(geo, annotType, df, image)
  {
    var collected := CollectShapes(geo, annotType, image, df);
    if collected.Failure? {
      return Failure(collected.error);
    }
    var folders := collected.value;
    CollectKinds(geo, annotType, image, df);
    var projects := |FolderNames(df)|;
    var visited: seq<seq<bool>> := [];
    for f := 0 to |folders|
      invariant |visited| == f
      invariant forall k, i :: 0 <= k < f && 0 <= i < |folders[k].entries| ==> |visited[k]| == |folders[k].entries| && !visited[k][i]
      invariant forall k :: 0 <= k < f ==> |visited[k]| == |folders[k].entries|
    {
      visited := visited + [seq(|folders[f].entries|, i => false)];
    }
    UnvisitedExact(folders, visited);
    var groups: seq<Match> := [];
    var out: seq<ConsensusRecord> := [];
    for f := 0 to |folders|
      invariant Reached(geo, annotType, folders, image, projects, |Positions(folders, f)|, State(visited, groups), out)
    {
      var st;
      st, out := VisitFolder(geo, annotType, folders, image, projects, f, visited, groups, out);
      if st.Failure? {
        DoomedFails(geo, annotType, df, image);
        ImageConsensusError(geo, annotType, df, image);
        return Failure(st.error);
      }
      visited, groups := st.value.visited, st.value.groups;
    }
    return Success(out);
  }
}

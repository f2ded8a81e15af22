/**
 * `image_consensus`: the greedy cross-folder matcher of one image and the
 * scores of the matched groups. The folders and their valid instances are
 * collected from the aggregated rows of the image; then every instance not
 * yet matched becomes the leader of a new group, which takes from every
 * other folder the best-scoring unmatched instance of the leader's class.
 */
module Matching {
  import opened Values
  import opened Table
  import opened Geometry
  import opened Frames

  /** One valid instance of a folder: its shape and the cells the output copies. */
  datatype Entry = Entry(shape: Shape, className: Value, creatorEmail: Value, attributes: Attributes)

  /** A folder of the image and its valid instances in row order (one item of `projects_shaply_objs`). */
  datatype Folder = Folder(name: Value, entries: seq<Entry>)

  /** The instance `entries[index]` of folder number `folder`. */
  datatype Member = Member(folder: nat, index: nat)

  /** A match group: the instance that opened it and its members in folder order (`max_instances`). */
  datatype Match = Match(leader: Member, members: seq<Member>)

  /** One row of `image_data`. */
  datatype ConsensusRecord = ConsensusRecord(
    creatorEmail: Value,
    imageName: Value,
    instanceId: nat,
    area: real,
    className: Value,
    attributes: Attributes,
    folderName: Value,
    score: real
  )

  // ----- collecting the folders of one image -----

  /** The position of the folder named `name`, if the image has one yet. */
  function FolderIndex(folders: seq<Folder>, name: Value): (r: Option<nat>)
    ensures r.Some? ==> r.value < |folders| && folders[r.value].name == name
    ensures r.None? ==> forall i :: 0 <= i < |folders| ==> folders[i].name != name
  {
    if folders == [] then None
    else if folders[|folders| - 1].name == name then Some(|folders| - 1)
    else FolderIndex(folders[..|folders| - 1], name)
  }

  /**
   * One row of the image: its folder gets a list if it has none, and the
   * shape of the row joins that list when shapely calls it valid.
   */
  function AddRow(geo: Oracle, annotType: string, folders: seq<Folder>, row: InstanceRow): (r: Result<seq<Folder>>)
    ensures r.Success? ==> |r.value| >= |folders|
  {
    var name := row.first.folderName;
    if Unhashable(name) then Failure(Malformed)
    else
      var fs := if FolderIndex(folders, name).Some? then folders else folders + [Folder(name, [])];
      var f := if FolderIndex(folders, name).Some? then FolderIndex(folders, name).value else |folders|;
      var shape :- BuildShape(annotType, row.first.meta);
      if geo.isValid(shape) then
        var e := Entry(shape, row.first.className, row.first.creatorEmail, row.attributes);
        Success(fs[f := Folder(name, fs[f].entries + [e])])
      else Success(fs)
  }

  /** The folders of the rows of `image`, in the order their first rows occur. */
  function Collect(geo: Oracle, annotType: string, image: Value, rows: seq<InstanceRow>): Result<seq<Folder>> {
    if rows == [] then Success([])
    else
      var folders :- Collect(geo, annotType, image, rows[..|rows| - 1]);
      var row := rows[|rows| - 1];
      if row.first.imageName != image then Success(folders) else AddRow(geo, annotType, folders, row)
  }

  // ----- the visited flags -----

  /** The flags have one entry per instance of every folder. */
  ghost predicate Shaped(visited: seq<seq<bool>>, folders: seq<Folder>) {
    |visited| == |folders| && forall f :: 0 <= f < |folders| ==> |visited[f]| == |folders[f].entries|
  }

  predicate InRange(folders: seq<Folder>, m: Member) {
    m.folder < |folders| && m.index < |folders[m.folder].entries|
  }

  /** The entry a member names. */
  function EntryOf(folders: seq<Folder>, m: Member): Entry
    requires InRange(folders, m)
  {
    folders[m.folder].entries[m.index]
  }

  /** `[False] * len(instances)` for every folder. */
  function Unvisited(folders: seq<Folder>): (v: seq<seq<bool>>)
    ensures Shaped(v, folders)
    ensures forall f, i :: 0 <= f < |v| && 0 <= i < |v[f]| ==> !v[f][i]
  {
    seq(|folders|, f requires 0 <= f < |folders| => seq(|folders[f].entries|, i => false))
  }

  /** The flags with every member of `ms` set. */
  function Mark(visited: seq<seq<bool>>, folders: seq<Folder>, ms: seq<Member>): (v: seq<seq<bool>>)
    requires Shaped(visited, folders)
    requires forall k :: 0 <= k < |ms| ==> InRange(folders, ms[k])
    ensures Shaped(v, folders)
    ensures forall f, i :: 0 <= f < |v| && 0 <= i < |v[f]| ==> (v[f][i] <==> visited[f][i] || Member(f, i) in ms)
  {
    if ms == [] then visited
    else
      var v := Mark(visited, folders, ms[..|ms| - 1]);
      var m := ms[|ms| - 1];
      assert InRange(folders, m) && |v[m.folder]| == |folders[m.folder].entries|;
      assert forall f, i :: Member(f, i) in ms <==> Member(f, i) in ms[..|ms| - 1] || Member(f, i) == m by {
        assert ms == ms[..|ms| - 1] + [m];
      }
      v[m.folder := v[m.folder][m.index := true]]
  }

  /** The instances some group of `gs` holds, as flags. */
  ghost predicate InSomeGroup(gs: seq<Match>, m: Member) {
    exists k :: 0 <= k < |gs| && m in gs[k].members
  }

  /** Member `m` is set in the flags. */
  predicate Flagged(visited: seq<seq<bool>>, m: Member) {
    m.folder < |visited| && m.index < |visited[m.folder]| && visited[m.folder][m.index]
  }

  // ----- the best candidate of one other folder -----

  /** The running maximum: 0 for bbox and polygon, minus infinity for points. */
  datatype Bound = NegInf | Above(score: real)

  function Floor(annotType: string): Bound {
    if annotType in ["polygon", "bbox"] then Above(0.0) else NegInf
  }

  /** `score > max_score`. */
  predicate Beats(s: real, b: Bound) {
    b.NegInf? || s > b.score
  }

  /** The running maximum and the index of the instance that set it (`max_inst_id`). */
  datatype Best = Best(bound: Bound, index: Option<nat>)

  /** The scan of the first `n` instances of another folder for the leader's partner. */
  function Scan(geo: Oracle, annotType: string, leader: Entry, entries: seq<Entry>, visited: seq<bool>, n: nat)
    : (r: Result<Best>)
    requires n <= |entries| == |visited|
    ensures r.Success? && r.value.index.Some? ==> r.value.index.value < n
    decreases n
  {
    if n == 0 then Success(Best(Floor(annotType), None))
    else
      var b :- Scan(geo, annotType, leader, entries, visited, n - 1);
      if visited[n - 1] then Success(b)
      else
        var s :- InstanceConsensus(geo, leader.shape, entries[n - 1].shape);
        if Beats(s, b.bound) && entries[n - 1].className == leader.className then
          Success(Best(Above(s), Some(n - 1)))
        else Success(b)
  }

  // ----- one group -----

  /**
   * `max_instances` of the leader: for each folder in order, the leader in
   * its own folder and the best candidate, if any, in every other one.
   */
  function Gather(geo: Oracle, annotType: string, folders: seq<Folder>, visited: seq<seq<bool>>, leader: Member,
                  n: nat): (r: Result<seq<Member>>)
    requires Shaped(visited, folders) && InRange(folders, leader) && n <= |folders|
    ensures r.Success? ==> forall k :: 0 <= k < |r.value| ==> InRange(folders, r.value[k]) && r.value[k].folder < n
    ensures r.Success? ==> forall k, l :: 0 <= k < l < |r.value| ==> r.value[k].folder < r.value[l].folder
    decreases n
  {
    if n == 0 then Success([])
    else
      var g :- Gather(geo, annotType, folders, visited, leader, n - 1);
      if n - 1 == leader.folder then Success(g + [leader])
      else
        var entries := folders[n - 1].entries;
        var b :- Scan(geo, annotType, EntryOf(folders, leader), entries, visited[n - 1], |entries|);
        if b.index.Some? then Success(g + [Member(n - 1, b.index.value)]) else Success(g)
  }

  /** The group the leader opens. */
  function GroupOf(geo: Oracle, annotType: string, folders: seq<Folder>, visited: seq<seq<bool>>, leader: Member)
    : (r: Result<seq<Member>>)
    requires Shaped(visited, folders) && InRange(folders, leader)
    ensures r.Success? ==> forall k :: 0 <= k < |r.value| ==> InRange(folders, r.value[k])
    ensures r.Success? ==> forall k, l :: 0 <= k < l < |r.value| ==> r.value[k].folder < r.value[l].folder
  {
    Gather(geo, annotType, folders, visited, leader, |folders|)
  }

  // ----- all groups of the image -----

  /** The visited flags and the groups formed so far. */
  datatype State = State(visited: seq<seq<bool>>, groups: seq<Match>)

  /** Every instance, folder by folder, in the order the matching loop visits them. */
  function Positions(folders: seq<Folder>, n: nat): (ps: seq<Member>)
    requires n <= |folders|
    ensures forall k :: 0 <= k < |ps| ==> InRange(folders, ps[k]) && ps[k].folder < n
  {
    if n == 0 then []
    else Positions(folders, n - 1) + seq(|folders[n - 1].entries|, i requires 0 <= i => Member(n - 1, i))
  }

  /** One position of the loop: a visited instance is skipped, any other opens a group. */
  function Step(geo: Oracle, annotType: string, folders: seq<Folder>, st: State, m: Member): (r: Result<State>)
    requires Shaped(st.visited, folders) && InRange(folders, m)
    ensures r.Success? ==> Shaped(r.value.visited, folders)
  {
    if st.visited[m.folder][m.index] then Success(st)
    else
      var g :- GroupOf(geo, annotType, folders, st.visited, m);
      Success(State(Mark(st.visited, folders, g), st.groups + [Match(m, g)]))
  }

  /** The loop over the first `n` positions. */
  function Run(geo: Oracle, annotType: string, folders: seq<Folder>, ps: seq<Member>, n: nat): (r: Result<State>)
    requires n <= |ps| && forall k :: 0 <= k < |ps| ==> InRange(folders, ps[k])
    ensures r.Success? ==> Shaped(r.value.visited, folders)
  {
    if n == 0 then Success(State(Unvisited(folders), []))
    else
      var st :- Run(geo, annotType, folders, ps, n - 1);
      Step(geo, annotType, folders, st, ps[n - 1])
  }

  /** The match groups of the image. */
  function Matches(geo: Oracle, annotType: string, folders: seq<Folder>): (r: Result<State>)
    ensures r.Success? ==> Shaped(r.value.visited, folders)
  {
    var ps := Positions(folders, |folders|);
    Run(geo, annotType, folders, ps, |ps|)
  }

  // ----- the rows of the groups -----

  /** `1.0 if score <= 0 else score`: a non-positive score counts as full agreement. */
  function Credit(s: real): real {
    if s <= 0.0 then 1.0 else s
  }

  /** `proj_cons` of member `m` over the first `n` members of its group. */
  function Agreement(geo: Oracle, folders: seq<Folder>, g: seq<Member>, m: Member, n: nat): (r: Result<real>)
    requires n <= |g| && InRange(folders, m) && forall k :: 0 <= k < |g| ==> InRange(folders, g[k])
  {
    if n == 0 then Success(0.0)
    else
      var acc :- Agreement(geo, folders, g, m, n - 1);
      var o := g[n - 1];
      if folders[m.folder].name != folders[o.folder].name then
        var s :- InstanceConsensus(geo, EntryOf(folders, m).shape, EntryOf(folders, o).shape);
        Success(acc + Credit(s))
      else Success(acc)
  }

  /** The output row of one member. */
  function RecordOf(geo: Oracle, folders: seq<Folder>, image: Value, id: nat, m: Member, score: real): ConsensusRecord
    requires InRange(folders, m)
  {
    var e := EntryOf(folders, m);
    ConsensusRecord(e.creatorEmail, image, id, geo.area(e.shape), e.className, e.attributes, folders[m.folder].name, score)
  }

  /** The rows of the first `n` members of a group of two or more. */
  function MemberRecords(geo: Oracle, folders: seq<Folder>, image: Value, projects: nat, g: seq<Member>, id: nat, n: nat)
    : (r: Result<seq<ConsensusRecord>>)
    requires n <= |g| && forall k :: 0 <= k < |g| ==> InRange(folders, g[k])
  {
    if n == 0 then Success([])
    else
      var rs :- MemberRecords(geo, folders, image, projects, g, id, n - 1);
      var cons :- Agreement(geo, folders, g, g[n - 1], |g|);
      if projects - 1 == 0 then Failure(ZeroDivision)
      else Success(rs + [RecordOf(geo, folders, image, id, g[n - 1], cons / (projects - 1) as real)])
  }

  /** The rows of one group: a lone member scores 0. */
  function GroupRecords(geo: Oracle, folders: seq<Folder>, image: Value, projects: nat, g: seq<Member>, id: nat)
    : (r: Result<seq<ConsensusRecord>>)
    requires forall k :: 0 <= k < |g| ==> InRange(folders, g[k])
  {
    if |g| == 1 then Success([RecordOf(geo, folders, image, id, g[0], 0.0)])
    else MemberRecords(geo, folders, image, projects, g, id, |g|)
  }

  /** The members of a group are in range. */
  ghost predicate GroupsInRange(folders: seq<Folder>, gs: seq<Match>) {
    forall k, j :: 0 <= k < |gs| && 0 <= j < |gs[k].members| ==> InRange(folders, gs[k].members[j])
  }

  /** The rows of the first `n` groups, the group number being the instance id. */
  function Emit(geo: Oracle, folders: seq<Folder>, image: Value, projects: nat, gs: seq<Match>, n: nat)
    : (r: Result<seq<ConsensusRecord>>)
    requires n <= |gs| && GroupsInRange(folders, gs)
  {
    if n == 0 then Success([])
    else
      var rs :- Emit(geo, folders, image, projects, gs, n - 1);
      var own :- GroupRecords(geo, folders, image, projects, gs[n - 1].members, n - 1);
      Success(rs + own)
  }

  /** The distinct folder names of the whole frame (`set(df["folderName"])`). */
  function FolderNames(df: seq<InstanceRow>): set<Value> {
    set r | r in df :: r.first.folderName
  }

  // ----- properties of one scan -----

  /** `entries[k]` may partner the leader: it is not matched yet and has the leader's class. */
  predicate Candidate(leader: Entry, entries: seq<Entry>, visited: seq<bool>, k: int)
    requires |entries| == |visited|
  {
    0 <= k < |entries| && !visited[k] && entries[k].className == leader.className
  }

  /** The leader's score with an instance. */
  function ScoreWith(geo: Oracle, leader: Entry, e: Entry): Result<real> {
    InstanceConsensus(geo, leader.shape, e.shape)
  }

  /**
   * The scan keeps the best-scoring candidate: the earliest one whose score
   * is the greatest, provided it beats the floor; with no such candidate it
   * finds none. It fails exactly when some unmatched instance (of any
   * class) cannot be scored against the leader.
   */
  lemma {:induction false} ScanBest(geo: Oracle, annotType: string, leader: Entry, entries: seq<Entry>,
                                    visited: seq<bool>, n: nat)
    requires n <= |entries| == |visited|
    ensures var r := Scan(geo, annotType, leader, entries, visited, n);
      r.Success? <==> forall k :: 0 <= k < n && !visited[k] ==> ScoreWith(geo, leader, entries[k]).Success?
    ensures var r := Scan(geo, annotType, leader, entries, visited, n);
      r.Success? && r.value.index.Some? ==>
        var j := r.value.index.value;
        && Candidate(leader, entries, visited, j)
        && ScoreWith(geo, leader, entries[j]).Success?
        && Beats(ScoreWith(geo, leader, entries[j]).value, Floor(annotType))
        && r.value.bound == Above(ScoreWith(geo, leader, entries[j]).value)
        && forall k :: 0 <= k < n && Candidate(leader, entries, visited, k) ==>
             && ScoreWith(geo, leader, entries[k]).value <= ScoreWith(geo, leader, entries[j]).value
             && (k < j ==> ScoreWith(geo, leader, entries[k]).value < ScoreWith(geo, leader, entries[j]).value)
    ensures var r := Scan(geo, annotType, leader, entries, visited, n);
      r.Success? && r.value.index.None? ==>
        && r.value.bound == Floor(annotType)
        && forall k :: 0 <= k < n && Candidate(leader, entries, visited, k) ==>
             !Beats(ScoreWith(geo, leader, entries[k]).value, Floor(annotType))
    decreases n
  {
    if n > 0 {
      ScanBest(geo, annotType, leader, entries, visited, n - 1);
      var prev := Scan(geo, annotType, leader, entries, visited, n - 1);
      if prev.Success? && !visited[n - 1] {
        var s := ScoreWith(geo, leader, entries[n - 1]);
        if s.Success? {
          var b := prev.value;
          var r := Scan(geo, annotType, leader, entries, visited, n);
          if Beats(s.value, b.bound) && entries[n - 1].className == leader.className {
            assert r.value.index == Some(n - 1);
            if b.index.Some? {
              assert Beats(s.value, Floor(annotType)) by {
                assert Beats(ScoreWith(geo, leader, entries[b.index.value]).value, Floor(annotType));
              }
            }
          }
        }
      }
    }
  }

  // ----- properties of one group -----

  /**
   * Instance `m` of another folder is the leader's partner there: a
   * candidate that beats the floor, whose score no candidate of its folder
   * exceeds and no earlier candidate equals.
   */
  ghost predicate Partner(geo: Oracle, annotType: string, folders: seq<Folder>, visited: seq<seq<bool>>,
                          leader: Member, m: Member)
    requires Shaped(visited, folders) && InRange(folders, leader) && InRange(folders, m)
  {
    var lead := EntryOf(folders, leader);
    var entries := folders[m.folder].entries;
    var seen := visited[m.folder];
    && m.folder != leader.folder
    && Candidate(lead, entries, seen, m.index)
    && ScoreWith(geo, lead, entries[m.index]).Success?
    && Beats(ScoreWith(geo, lead, entries[m.index]).value, Floor(annotType))
    && forall k :: Candidate(lead, entries, seen, k) ==>
         && ScoreWith(geo, lead, entries[k]).Success?
         && ScoreWith(geo, lead, entries[k]).value <= ScoreWith(geo, lead, entries[m.index]).value
         && (k < m.index ==> ScoreWith(geo, lead, entries[k]).value < ScoreWith(geo, lead, entries[m.index]).value)
  }

  /** Folder `f` offers the leader no candidate that beats the floor. */
  ghost predicate NoPartner(geo: Oracle, annotType: string, folders: seq<Folder>, visited: seq<seq<bool>>,
                            leader: Member, f: nat)
    requires Shaped(visited, folders) && InRange(folders, leader) && f < |folders|
  {
    var lead := EntryOf(folders, leader);
    forall k :: Candidate(lead, folders[f].entries, visited[f], k) ==>
      && ScoreWith(geo, lead, folders[f].entries[k]).Success?
      && !Beats(ScoreWith(geo, lead, folders[f].entries[k]).value, Floor(annotType))
  }

  /** The scan of another folder finds the leader's partner there, or establishes it has none. */
  lemma ScanPartner(geo: Oracle, annotType: string, folders: seq<Folder>, visited: seq<seq<bool>>,
                    leader: Member, f: nat)
    requires Shaped(visited, folders) && InRange(folders, leader) && f < |folders| && f != leader.folder
    ensures var lead := EntryOf(folders, leader);
      var b := Scan(geo, annotType, lead, folders[f].entries, visited[f], |folders[f].entries|);
      && (b.Success? && b.value.index.Some? ==>
            InRange(folders, Member(f, b.value.index.value))
            && Partner(geo, annotType, folders, visited, leader, Member(f, b.value.index.value)))
      && (b.Success? && b.value.index.None? ==> NoPartner(geo, annotType, folders, visited, leader, f))
      && (b.Failure? ==> exists i :: 0 <= i < |folders[f].entries| && !visited[f][i]
                           && ScoreWith(geo, lead, folders[f].entries[i]).Failure?)
  {
    var entries := folders[f].entries;
    ScanBest(geo, annotType, EntryOf(folders, leader), entries, visited[f], |entries|);
  }

  /** A grown group is the group before it plus at most one member. */
  lemma GatherGrows(geo: Oracle, annotType: string, folders: seq<Folder>, visited: seq<seq<bool>>,
                    leader: Member, n: nat)
    requires Shaped(visited, folders) && InRange(folders, leader) && 0 < n <= |folders|
    requires Gather(geo, annotType, folders, visited, leader, n).Success?
    ensures var g := Gather(geo, annotType, folders, visited, leader, n - 1);
      var r := Gather(geo, annotType, folders, visited, leader, n).value;
      && g.Success?
      && (r == g.value || (|r| == |g.value| + 1 && r == g.value + [r[|g.value|]] && r[|g.value|].folder == n - 1))
      && (n - 1 == leader.folder ==> r == g.value + [leader])
  {
  }

  /** The leader is in its group. */
  lemma {:induction false} GatherLeader(geo: Oracle, annotType: string, folders: seq<Folder>, visited: seq<seq<bool>>,
                                        leader: Member, n: nat)
    requires Shaped(visited, folders) && InRange(folders, leader) && n <= |folders|
    requires Gather(geo, annotType, folders, visited, leader, n).Success?
    ensures leader.folder < n <==> leader in Gather(geo, annotType, folders, visited, leader, n).value
    decreases n
  {
    if n > 0 {
      GatherLeader(geo, annotType, folders, visited, leader, n - 1);
      GatherGrows(geo, annotType, folders, visited, leader, n);
    }
  }

  /** Every member besides the leader is the leader's partner in its folder. */
  lemma {:induction false} GatherPartners(geo: Oracle, annotType: string, folders: seq<Folder>, visited: seq<seq<bool>>,
                                          leader: Member, n: nat)
    requires Shaped(visited, folders) && InRange(folders, leader) && n <= |folders|
    requires Gather(geo, annotType, folders, visited, leader, n).Success?
    ensures var g := Gather(geo, annotType, folders, visited, leader, n).value;
      forall k :: 0 <= k < |g| && g[k] != leader ==> Partner(geo, annotType, folders, visited, leader, g[k])
    decreases n
  {
    if n > 0 {
      GatherPartners(geo, annotType, folders, visited, leader, n - 1);
      GatherGrows(geo, annotType, folders, visited, leader, n);
      if n - 1 != leader.folder {
        ScanPartner(geo, annotType, folders, visited, leader, n - 1);
      }
    }
  }

  /** A folder other than the leader's that gave no member has no partner for the leader. */
  lemma {:induction false} GatherNoPartner(geo: Oracle, annotType: string, folders: seq<Folder>, visited: seq<seq<bool>>,
                                           leader: Member, n: nat)
    requires Shaped(visited, folders) && InRange(folders, leader) && n <= |folders|
    requires Gather(geo, annotType, folders, visited, leader, n).Success?
    ensures var g := Gather(geo, annotType, folders, visited, leader, n).value;
      forall f :: 0 <= f < n && f != leader.folder && (forall k :: 0 <= k < |g| ==> g[k].folder != f) ==>
        NoPartner(geo, annotType, folders, visited, leader, f)
    decreases n
  {
    if n > 0 {
      GatherNoPartner(geo, annotType, folders, visited, leader, n - 1);
      GatherGrows(geo, annotType, folders, visited, leader, n);
      var g := Gather(geo, annotType, folders, visited, leader, n - 1).value;
      var r := Gather(geo, annotType, folders, visited, leader, n).value;
      assert forall k :: 0 <= k < |g| ==> r[k] == g[k];
      if n - 1 != leader.folder {
        ScanPartner(geo, annotType, folders, visited, leader, n - 1);
      }
    }
  }

  /** A group fails only when an unmatched instance of another folder cannot be scored with the leader. */
  lemma {:induction false} GatherFails(geo: Oracle, annotType: string, folders: seq<Folder>, visited: seq<seq<bool>>,
                                       leader: Member, n: nat)
    requires Shaped(visited, folders) && InRange(folders, leader) && n <= |folders|
    requires Gather(geo, annotType, folders, visited, leader, n).Failure?
    ensures exists f, i :: 0 <= f < n && f != leader.folder && 0 <= i < |folders[f].entries| && !visited[f][i]
                       && ScoreWith(geo, EntryOf(folders, leader), folders[f].entries[i]).Failure?
    decreases n
  {
    if Gather(geo, annotType, folders, visited, leader, n - 1).Failure? {
      GatherFails(geo, annotType, folders, visited, leader, n - 1);
    } else {
      ScanPartner(geo, annotType, folders, visited, leader, n - 1);
    }
  }

  // ----- properties of the whole matching -----

  /** The flags of the instances the groups `gs` hold. */
  ghost function Covered(folders: seq<Folder>, gs: seq<Match>): (v: seq<seq<bool>>)
    ensures Shaped(v, folders)
    ensures forall f, i :: 0 <= f < |v| && 0 <= i < |v[f]| ==> (v[f][i] <==> InSomeGroup(gs, Member(f, i)))
  {
    seq(|folders|, f requires 0 <= f < |folders| =>
      seq(|folders[f].entries|, i requires 0 <= i < |folders[f].entries| => InSomeGroup(gs, Member(f, i))))
  }

  /**
   * Every group of the loop was formed by its leader from the flags of the
   * groups before it, and the leader was not in any of them.
   */
  ghost predicate Greedy(geo: Oracle, annotType: string, folders: seq<Folder>, gs: seq<Match>) {
    forall k :: 0 <= k < |gs| ==>
      && InRange(folders, gs[k].leader)
      && !InSomeGroup(gs[..k], gs[k].leader)
      && GroupOf(geo, annotType, folders, Covered(folders, gs[..k]), gs[k].leader) == Success(gs[k].members)
  }

  /** Marking a new group's members gives the flags of the groups with it. */
  lemma MarkCovered(folders: seq<Folder>, gs: seq<Match>, g: Match)
    requires forall k :: 0 <= k < |g.members| ==> InRange(folders, g.members[k])
    ensures Mark(Covered(folders, gs), folders, g.members) == Covered(folders, gs + [g])
  {
    var v := Mark(Covered(folders, gs), folders, g.members);
    var w := Covered(folders, gs + [g]);
    forall f, i | 0 <= f < |folders| && 0 <= i < |folders[f].entries|
      ensures InSomeGroup(gs + [g], Member(f, i)) <==> InSomeGroup(gs, Member(f, i)) || Member(f, i) in g.members
    {
      if InSomeGroup(gs + [g], Member(f, i)) {
        var k :| 0 <= k < |gs + [g]| && Member(f, i) in (gs + [g])[k].members;
        if k < |gs| {
          assert (gs + [g])[k] == gs[k];
        }
      }
      if InSomeGroup(gs, Member(f, i)) {
        var k :| 0 <= k < |gs| && Member(f, i) in gs[k].members;
        assert (gs + [g])[k] == gs[k];
      }
      if Member(f, i) in g.members {
        assert (gs + [g])[|gs|] == g;
      }
    }
    forall f | 0 <= f < |folders| ensures v[f] == w[f] {
    }
  }

  /** A group formed from the covered flags by a leader outside them keeps the loop greedy. */
  lemma GreedyGrows(geo: Oracle, annotType: string, folders: seq<Folder>, gs: seq<Match>, g: Match)
    requires Greedy(geo, annotType, folders, gs)
    requires InRange(folders, g.leader) && !InSomeGroup(gs, g.leader)
    requires GroupOf(geo, annotType, folders, Covered(folders, gs), g.leader) == Success(g.members)
    ensures Greedy(geo, annotType, folders, gs + [g])
  {
    var next := gs + [g];
    assert next[..|gs|] == gs;
    forall k | 0 <= k < |gs| ensures next[..k] == gs[..k] && next[k] == gs[k] {
    }
  }

  /** The groups' members are the leader's group of its time. */
  lemma GreedyInRange(geo: Oracle, annotType: string, folders: seq<Folder>, gs: seq<Match>)
    requires Greedy(geo, annotType, folders, gs)
    ensures GroupsInRange(folders, gs)
  {
    forall k, j | 0 <= k < |gs| && 0 <= j < |gs[k].members| ensures InRange(folders, gs[k].members[j]) {
      assert GroupOf(geo, annotType, folders, Covered(folders, gs[..k]), gs[k].leader) == Success(gs[k].members);
    }
  }

  /** One position keeps the flags equal to the groups' members and the groups greedy. */
  lemma StepInvariant(geo: Oracle, annotType: string, folders: seq<Folder>, st: State, m: Member)
    requires InRange(folders, m) && Shaped(st.visited, folders)
    requires st.visited == Covered(folders, st.groups) && Greedy(geo, annotType, folders, st.groups)
    requires Step(geo, annotType, folders, st, m).Success?
    ensures var next := Step(geo, annotType, folders, st, m).value;
      && next.visited == Covered(folders, next.groups)
      && Greedy(geo, annotType, folders, next.groups)
  {
    if !st.visited[m.folder][m.index] {
      var g := GroupOf(geo, annotType, folders, st.visited, m).value;
      MarkCovered(folders, st.groups, Match(m, g));
      GreedyGrows(geo, annotType, folders, st.groups, Match(m, g));
      GatherLeader(geo, annotType, folders, st.visited, m, |folders|);
    }
  }

  /** One position sets its own flag and clears none. */
  lemma StepFlags(geo: Oracle, annotType: string, folders: seq<Folder>, st: State, m: Member)
    requires InRange(folders, m) && Shaped(st.visited, folders)
    requires Step(geo, annotType, folders, st, m).Success?
    ensures var next := Step(geo, annotType, folders, st, m).value;
      && Flagged(next.visited, m)
      && forall p :: Flagged(st.visited, p) ==> Flagged(next.visited, p)
  {
    if !st.visited[m.folder][m.index] {
      var g := GroupOf(geo, annotType, folders, st.visited, m).value;
      GatherLeader(geo, annotType, folders, st.visited, m, |folders|);
    }
  }

  /** The flags after the first `n` positions equal the groups' members, and the groups are greedy. */
  lemma {:induction false} RunInvariant(geo: Oracle, annotType: string, folders: seq<Folder>, ps: seq<Member>, n: nat)
    requires n <= |ps| && forall k :: 0 <= k < |ps| ==> InRange(folders, ps[k])
    requires Run(geo, annotType, folders, ps, n).Success?
    ensures var st := Run(geo, annotType, folders, ps, n).value;
      st.visited == Covered(folders, st.groups) && Greedy(geo, annotType, folders, st.groups)
    decreases n
  {
    if n == 0 {
      var st := Run(geo, annotType, folders, ps, n).value;
      assert st.visited == Covered(folders, st.groups) by {
        forall f | 0 <= f < |folders| ensures st.visited[f] == Covered(folders, st.groups)[f] {
        }
      }
    } else {
      RunInvariant(geo, annotType, folders, ps, n - 1);
      StepInvariant(geo, annotType, folders, Run(geo, annotType, folders, ps, n - 1).value, ps[n - 1]);
    }
  }

  /** The first `n` positions are all flagged after the loop has passed them. */
  lemma {:induction false} RunFlags(geo: Oracle, annotType: string, folders: seq<Folder>, ps: seq<Member>, n: nat)
    requires n <= |ps| && forall k :: 0 <= k < |ps| ==> InRange(folders, ps[k])
    requires Run(geo, annotType, folders, ps, n).Success?
    ensures forall j :: 0 <= j < n ==> Flagged(Run(geo, annotType, folders, ps, n).value.visited, ps[j])
    decreases n
  {
    if n > 0 {
      RunFlags(geo, annotType, folders, ps, n - 1);
      StepFlags(geo, annotType, folders, Run(geo, annotType, folders, ps, n - 1).value, ps[n - 1]);
    }
  }

  /**
   * The group a leader opens: the leader itself, and in every other folder
   * its partner there if it has one; a folder without a member has none.
   */
  lemma GroupOfExact(geo: Oracle, annotType: string, folders: seq<Folder>, visited: seq<seq<bool>>, leader: Member)
    requires Shaped(visited, folders) && InRange(folders, leader)
    requires GroupOf(geo, annotType, folders, visited, leader).Success?
    ensures var g := GroupOf(geo, annotType, folders, visited, leader).value;
      && leader in g
      && (forall k :: 0 <= k < |g| && g[k] != leader ==> Partner(geo, annotType, folders, visited, leader, g[k]))
      && (forall f :: 0 <= f < |folders| && f != leader.folder && (forall k :: 0 <= k < |g| ==> g[k].folder != f) ==>
            NoPartner(geo, annotType, folders, visited, leader, f))
  {
    GatherLeader(geo, annotType, folders, visited, leader, |folders|);
    GatherPartners(geo, annotType, folders, visited, leader, |folders|);
    GatherNoPartner(geo, annotType, folders, visited, leader, |folders|);
  }

  /** Every member of a group was unmatched when the group formed and has the leader's class. */
  lemma GroupMembers(geo: Oracle, annotType: string, folders: seq<Folder>, visited: seq<seq<bool>>, leader: Member)
    requires Shaped(visited, folders) && InRange(folders, leader) && !visited[leader.folder][leader.index]
    requires GroupOf(geo, annotType, folders, visited, leader).Success?
    ensures var g := GroupOf(geo, annotType, folders, visited, leader).value;
      forall k :: 0 <= k < |g| ==>
        && !visited[g[k].folder][g[k].index]
        && EntryOf(folders, g[k]).className == EntryOf(folders, leader).className
  {
    GroupOfExact(geo, annotType, folders, visited, leader);
  }

  /** The loop visits every instance of the image. */
  lemma {:induction false} PositionsCover(folders: seq<Folder>, n: nat, m: Member)
    requires n <= |folders| && InRange(folders, m) && m.folder < n
    ensures exists j :: 0 <= j < |Positions(folders, n)| && Positions(folders, n)[j] == m
    decreases n
  {
    var ps := Positions(folders, n);
    if m.folder < n - 1 {
      PositionsCover(folders, n - 1, m);
      var j :| 0 <= j < |Positions(folders, n - 1)| && Positions(folders, n - 1)[j] == m;
      assert ps[j] == m;
    } else {
      assert ps[|Positions(folders, n - 1)| + m.index] == m;
    }
  }

  /** In a greedy sequence of groups every group holds its leader, and members of the leader's class only. */
  lemma GreedyMembers(geo: Oracle, annotType: string, folders: seq<Folder>, gs: seq<Match>)
    requires Greedy(geo, annotType, folders, gs)
    ensures GroupsInRange(folders, gs)
    ensures forall k :: 0 <= k < |gs| ==> gs[k].leader in gs[k].members
    ensures forall k, j :: 0 <= k < |gs| && 0 <= j < |gs[k].members| ==>
      EntryOf(folders, gs[k].members[j]).className == EntryOf(folders, gs[k].leader).className
  {
    GreedyInRange(geo, annotType, folders, gs);
    forall k | 0 <= k < |gs|
      ensures gs[k].leader in gs[k].members
      ensures forall j :: 0 <= j < |gs[k].members| ==>
        EntryOf(folders, gs[k].members[j]).className == EntryOf(folders, gs[k].leader).className
    {
      GroupOfExact(geo, annotType, folders, Covered(folders, gs[..k]), gs[k].leader);
      GroupMembers(geo, annotType, folders, Covered(folders, gs[..k]), gs[k].leader);
    }
  }

  /** In a greedy sequence of groups no instance is in two groups, nor twice in one. */
  lemma GreedyDisjoint(geo: Oracle, annotType: string, folders: seq<Folder>, gs: seq<Match>)
    requires Greedy(geo, annotType, folders, gs)
    ensures forall k, l, j :: 0 <= k < l < |gs| && 0 <= j < |gs[l].members| ==> gs[l].members[j] !in gs[k].members
    ensures forall k, i, j :: 0 <= k < |gs| && 0 <= i < j < |gs[k].members| ==>
      gs[k].members[i].folder < gs[k].members[j].folder
  {
    forall l | 0 <= l < |gs|
      ensures forall j :: 0 <= j < |gs[l].members| ==> !InSomeGroup(gs[..l], gs[l].members[j])
      ensures forall i, j :: 0 <= i < j < |gs[l].members| ==> gs[l].members[i].folder < gs[l].members[j].folder
    {
      assert GroupOf(geo, annotType, folders, Covered(folders, gs[..l]), gs[l].leader) == Success(gs[l].members);
      GroupMembers(geo, annotType, folders, Covered(folders, gs[..l]), gs[l].leader);
    }
    forall k, l, j | 0 <= k < l < |gs| && 0 <= j < |gs[l].members| ensures gs[l].members[j] !in gs[k].members {
      assert gs[..l][k] == gs[k];
    }
  }

  /** After the loop every valid instance of the image is in some group. */
  lemma MatchesCover(geo: Oracle, annotType: string, folders: seq<Folder>, m: Member)
    requires Matches(geo, annotType, folders).Success? && InRange(folders, m)
    ensures InSomeGroup(Matches(geo, annotType, folders).value.groups, m)
  {
    var ps := Positions(folders, |folders|);
    RunInvariant(geo, annotType, folders, ps, |ps|);
    RunFlags(geo, annotType, folders, ps, |ps|);
    PositionsCover(folders, |folders|, m);
  }

  /**
   * The groups partition the valid instances of the image: every instance
   * is in a group, no instance is in two, a group holds at most one
   * instance per folder (its members' folders increase), contains its
   * leader, and all its members have the leader's class.
   */
  lemma MatchesPartition(geo: Oracle, annotType: string, folders: seq<Folder>)
    requires Matches(geo, annotType, folders).Success?
    ensures var gs := Matches(geo, annotType, folders).value.groups;
      && GroupsInRange(folders, gs)
      && (forall m :: InRange(folders, m) ==> InSomeGroup(gs, m))
      && (forall k, l, j :: 0 <= k < l < |gs| && 0 <= j < |gs[l].members| ==> gs[l].members[j] !in gs[k].members)
      && (forall k :: 0 <= k < |gs| ==> gs[k].leader in gs[k].members)
      && (forall k, i, j :: 0 <= k < |gs| && 0 <= i < j < |gs[k].members| ==>
            gs[k].members[i].folder < gs[k].members[j].folder)
      && (forall k, j :: 0 <= k < |gs| && 0 <= j < |gs[k].members| ==>
            EntryOf(folders, gs[k].members[j]).className == EntryOf(folders, gs[k].leader).className)
  {
    var ps := Positions(folders, |folders|);
    var gs := Matches(geo, annotType, folders).value.groups;
    RunInvariant(geo, annotType, folders, ps, |ps|);
    GreedyMembers(geo, annotType, folders, gs);
    GreedyDisjoint(geo, annotType, folders, gs);
    forall m | InRange(folders, m) ensures InSomeGroup(gs, m) {
      MatchesCover(geo, annotType, folders, m);
    }
  }

  /** The groups name only instances of the folders. */
  lemma MatchesInRange(geo: Oracle, annotType: string, folders: seq<Folder>)
    requires Matches(geo, annotType, folders).Success?
    ensures GroupsInRange(folders, Matches(geo, annotType, folders).value.groups)
  {
    MatchesPartition(geo, annotType, folders);
  }

  // ----- properties of the scores -----

  /** How many of the first `n` members of the group lie in a folder named differently from `m`'s. */
  function Others(folders: seq<Folder>, g: seq<Member>, m: Member, n: nat): (c: nat)
    requires n <= |g| && InRange(folders, m) && forall k :: 0 <= k < |g| ==> InRange(folders, g[k])
    ensures c <= n
  {
    if n == 0 then 0
    else Others(folders, g, m, n - 1) + (if folders[m.folder].name != folders[g[n - 1].folder].name then 1 else 0)
  }

  /**
   * Under shapely's laws each other member adds a credit in (0, 1], so the
   * agreement lies in [0, Others]; between points every credit is 1 and the
   * agreement is exactly the number of other members.
   */
  lemma {:induction false} AgreementRange(geo: Oracle, folders: seq<Folder>, g: seq<Member>, m: Member, n: nat)
    requires Lawful(geo)
    requires n <= |g| && InRange(folders, m) && forall k :: 0 <= k < |g| ==> InRange(folders, g[k])
    requires Agreement(geo, folders, g, m, n).Success?
    ensures 0.0 <= Agreement(geo, folders, g, m, n).value <= Others(folders, g, m, n) as real
    ensures EntryOf(folders, m).shape.Point? ==>
      Agreement(geo, folders, g, m, n).value == Others(folders, g, m, n) as real
    decreases n
  {
    if n > 0 {
      AgreementRange(geo, folders, g, m, n - 1);
      var o := g[n - 1];
      var a, b := EntryOf(folders, m).shape, EntryOf(folders, o).shape;
      if folders[m.folder].name != folders[o.folder].name {
        ConsensusRange(geo, a, b);
        assert 0.0 < Credit(InstanceConsensus(geo, a, b).value) <= 1.0;
      }
    }
  }

  /** The folders of the image have distinct names. */
  ghost predicate DistinctNames(folders: seq<Folder>) {
    forall i, j :: 0 <= i < j < |folders| ==> folders[i].name != folders[j].name
  }

  /**
   * In a group with one member per folder and folders of distinct names,
   * every member but `g[j]` itself counts as another.
   */
  lemma {:induction false} OthersCount(folders: seq<Folder>, g: seq<Member>, j: nat, n: nat)
    requires DistinctNames(folders)
    requires n <= |g| && j < |g| && forall k :: 0 <= k < |g| ==> InRange(folders, g[k])
    requires forall k, l :: 0 <= k < l < |g| ==> g[k].folder < g[l].folder
    ensures Others(folders, g, g[j], n) == if j < n then n - 1 else n
    decreases n
  {
    if n > 0 {
      OthersCount(folders, g, j, n - 1);
      var a, b := g[j].folder, g[n - 1].folder;
      if n - 1 != j {
        assert a != b;
        assert folders[a].name != folders[b].name by {
          if a < b { } else { }
        }
      }
    }
  }

  /** The score of member `j` of a group: 0 alone, else its agreement over the other folders. */
  ghost predicate Scored(geo: Oracle, folders: seq<Folder>, image: Value, projects: nat, g: seq<Member>, id: nat,
                         j: nat, rec: ConsensusRecord)
    requires j < |g| && forall k :: 0 <= k < |g| ==> InRange(folders, g[k])
  {
    if |g| == 1 then rec == RecordOf(geo, folders, image, id, g[j], 0.0)
    else
      && projects != 1
      && Agreement(geo, folders, g, g[j], |g|).Success?
      && rec == RecordOf(geo, folders, image, id, g[j], Agreement(geo, folders, g, g[j], |g|).value / (projects - 1) as real)
  }

  /** The member rows: one per member, in order, each with its agreement divided by the other folders. */
  lemma {:induction false} MemberRecordsExact(geo: Oracle, folders: seq<Folder>, image: Value, projects: nat,
                                              g: seq<Member>, id: nat, n: nat)
    requires |g| != 1 && n <= |g| && forall k :: 0 <= k < |g| ==> InRange(folders, g[k])
    ensures var r := MemberRecords(geo, folders, image, projects, g, id, n);
      r.Success? <==> n == 0 || (projects != 1 && forall j :: 0 <= j < n ==> Agreement(geo, folders, g, g[j], |g|).Success?)
    ensures var r := MemberRecords(geo, folders, image, projects, g, id, n);
      r.Success? ==> |r.value| == n && forall j :: 0 <= j < n ==> Scored(geo, folders, image, projects, g, id, j, r.value[j])
    decreases n
  {
    if n > 0 {
      MemberRecordsExact(geo, folders, image, projects, g, id, n - 1);
    }
  }

  /** A group's rows: one per member, in order, scored as `Scored` says; only a shared group can fail. */
  lemma GroupRecordsExact(geo: Oracle, folders: seq<Folder>, image: Value, projects: nat, g: seq<Member>, id: nat)
    requires |g| > 0 && forall k :: 0 <= k < |g| ==> InRange(folders, g[k])
    ensures var r := GroupRecords(geo, folders, image, projects, g, id);
      r.Success? <==> |g| == 1 || (projects != 1 && forall j :: 0 <= j < |g| ==> Agreement(geo, folders, g, g[j], |g|).Success?)
    ensures var r := GroupRecords(geo, folders, image, projects, g, id);
      r.Success? ==> |r.value| == |g| && forall j :: 0 <= j < |g| ==> Scored(geo, folders, image, projects, g, id, j, r.value[j])
  {
    if |g| != 1 {
      MemberRecordsExact(geo, folders, image, projects, g, id, |g|);
    }
  }

  /** The rows carrying instance id `id`. */
  function WithId(rs: seq<ConsensusRecord>, id: nat): (r: seq<ConsensusRecord>)
    ensures forall j :: 0 <= j < |r| ==> r[j].instanceId == id
  {
    if rs == [] then []
    else WithId(rs[..|rs| - 1], id) + (if rs[|rs| - 1].instanceId == id then [rs[|rs| - 1]] else [])
  }

  lemma {:induction false} WithIdConcat(a: seq<ConsensusRecord>, b: seq<ConsensusRecord>, id: nat)
    ensures WithId(a + b, id) == WithId(a, id) + WithId(b, id)
    decreases |b|
  {
    if b == [] {
      assert a + b == a;
    } else {
      assert (a + b)[..|a + b| - 1] == a + b[..|b| - 1];
      WithIdConcat(a, b[..|b| - 1], id);
    }
  }

  /** Rows that all carry one id keep all of them for that id and none for another. */
  lemma {:induction false} WithIdUniform(rs: seq<ConsensusRecord>, id: nat, other: nat)
    requires forall j :: 0 <= j < |rs| ==> rs[j].instanceId == id
    ensures WithId(rs, id) == rs
    ensures other != id ==> WithId(rs, other) == []
    decreases |rs|
  {
    if rs != [] {
      WithIdUniform(rs[..|rs| - 1], id, other);
    }
  }

  /** Every row of a group carries the group's id. */
  lemma GroupRecordsId(geo: Oracle, folders: seq<Folder>, image: Value, projects: nat, g: seq<Member>, id: nat)
    requires |g| > 0 && forall k :: 0 <= k < |g| ==> InRange(folders, g[k])
    requires GroupRecords(geo, folders, image, projects, g, id).Success?
    ensures var r := GroupRecords(geo, folders, image, projects, g, id).value;
      forall j :: 0 <= j < |r| ==> r[j].instanceId == id
  {
    GroupRecordsExact(geo, folders, image, projects, g, id);
  }

  /** Emission fails iff some group does. */
  lemma {:induction false} EmitSucceeds(geo: Oracle, folders: seq<Folder>, image: Value, projects: nat, gs: seq<Match>, n: nat)
    requires n <= |gs| && GroupsInRange(folders, gs)
    ensures Emit(geo, folders, image, projects, gs, n).Success? <==>
      forall k :: 0 <= k < n ==> GroupRecords(geo, folders, image, projects, gs[k].members, k).Success?
    decreases n
  {
    if n > 0 {
      EmitSucceeds(geo, folders, image, projects, gs, n - 1);
    }
  }

  /** The groups are emitted in order, each group's rows after the rows of the groups before it. */
  lemma {:induction false} EmitOrder(geo: Oracle, folders: seq<Folder>, image: Value, projects: nat, gs: seq<Match>, n: nat)
    requires n <= |gs| && GroupsInRange(folders, gs) && forall k :: 0 <= k < |gs| ==> |gs[k].members| > 0
    ensures var r := Emit(geo, folders, image, projects, gs, n);
      r.Success? ==>
        && (forall i, j :: 0 <= i < j < |r.value| ==> r.value[i].instanceId <= r.value[j].instanceId)
        && (forall i :: 0 <= i < |r.value| ==> r.value[i].instanceId < n)
    decreases n
  {
    if n > 0 {
      EmitOrder(geo, folders, image, projects, gs, n - 1);
      var prev := Emit(geo, folders, image, projects, gs, n - 1);
      var own := GroupRecords(geo, folders, image, projects, gs[n - 1].members, n - 1);
      if prev.Success? && own.Success? {
        GroupRecordsId(geo, folders, image, projects, gs[n - 1].members, n - 1);
        var rs, os := prev.value, own.value;
        assert forall i :: 0 <= i < |rs + os| ==> (rs + os)[i] == if i < |rs| then rs[i] else os[i - |rs|];
      }
    }
  }

  /** The rows with instance id `k` are exactly the rows of group `k`. */
  lemma {:induction false} EmitBlocks(geo: Oracle, folders: seq<Folder>, image: Value, projects: nat, gs: seq<Match>, n: nat)
    requires n <= |gs| && GroupsInRange(folders, gs) && forall k :: 0 <= k < |gs| ==> |gs[k].members| > 0
    requires Emit(geo, folders, image, projects, gs, n).Success?
    ensures forall k :: 0 <= k < n && GroupRecords(geo, folders, image, projects, gs[k].members, k).Success? ==>
      WithId(Emit(geo, folders, image, projects, gs, n).value, k) == GroupRecords(geo, folders, image, projects, gs[k].members, k).value
    decreases n
  {
    if n > 0 {
      EmitOrder(geo, folders, image, projects, gs, n - 1);
      var rs := Emit(geo, folders, image, projects, gs, n - 1).value;
      var own := GroupRecords(geo, folders, image, projects, gs[n - 1].members, n - 1);
      var os := own.value;
      assert Emit(geo, folders, image, projects, gs, n).value == rs + os;
      GroupRecordsId(geo, folders, image, projects, gs[n - 1].members, n - 1);
      assert forall i :: 0 <= i < |rs| ==> rs[i].instanceId < n - 1;
      assert forall j :: 0 <= j < |os| ==> os[j].instanceId == n - 1;
      WithIdAppend(rs, os, n - 1);
      EmitBlocks(geo, folders, image, projects, gs, n - 1);
      forall k | 0 <= k < n && GroupRecords(geo, folders, image, projects, gs[k].members, k).Success?
        ensures WithId(rs + os, k) == GroupRecords(geo, folders, image, projects, gs[k].members, k).value
      {
        if k < n - 1 {
          assert WithId(rs + os, k) == WithId(rs, k);
        }
      }
    }
  }

  /** Appending the rows of a new, higher id leaves the rows of every lower id as they were. */
  lemma WithIdAppend(rs: seq<ConsensusRecord>, os: seq<ConsensusRecord>, id: nat)
    requires forall i :: 0 <= i < |rs| ==> rs[i].instanceId < id
    requires forall j :: 0 <= j < |os| ==> os[j].instanceId == id
    ensures WithId(rs + os, id) == os
    ensures forall k :: 0 <= k < id ==> WithId(rs + os, k) == WithId(rs, k)
  {
    WithIdNone(rs, id);
    WithIdConcat(rs, os, id);
    WithIdUniform(os, id, id);
    forall k | 0 <= k < id ensures WithId(rs + os, k) == WithId(rs, k) {
      WithIdConcat(rs, os, k);
      WithIdUniform(os, id, k);
      assert WithId(rs, k) + [] == WithId(rs, k);
    }
  }

  /** No row carries an id at or above the bound. */
  lemma {:induction false} WithIdNone(rs: seq<ConsensusRecord>, id: nat)
    requires forall i :: 0 <= i < |rs| ==> rs[i].instanceId < id
    ensures WithId(rs, id) == []
    decreases |rs|
  {
    if rs != [] {
      WithIdNone(rs[..|rs| - 1], id);
    }
  }

  // ----- properties of the collected folders -----

  /** A row of `image` that stops the collection: its folder cannot be a dict key or its shape cannot be built. */
  predicate Unbuildable(annotType: string, image: Value, row: InstanceRow) {
    row.first.imageName == image && (Unhashable(row.first.folderName) || BuildShape(annotType, row.first.meta).Failure?)
  }

  /** The collection fails exactly when some row of the image cannot be collected. */
  lemma {:induction false} CollectFails(geo: Oracle, annotType: string, image: Value, rows: seq<InstanceRow>)
    ensures Collect(geo, annotType, image, rows).Failure? <==>
      exists i :: 0 <= i < |rows| && Unbuildable(annotType, image, rows[i])
    decreases |rows|
  {
    if rows != [] {
      var init := rows[..|rows| - 1];
      CollectFails(geo, annotType, image, init);
      assert forall i :: 0 <= i < |init| ==> init[i] == rows[i];
      if exists i :: 0 <= i < |init| && Unbuildable(annotType, image, init[i]) {
        var i :| 0 <= i < |init| && Unbuildable(annotType, image, init[i]);
        assert Unbuildable(annotType, image, rows[i]);
      }
    }
  }

  /** Some row of `image` lies in the folder named `name`. */
  ghost predicate HasFolder(image: Value, rows: seq<InstanceRow>, name: Value) {
    exists i :: 0 <= i < |rows| && rows[i].first.imageName == image && rows[i].first.folderName == name
  }

  /** A row keeps the folders' names and adds its own folder's name at the end if it is new. */
  lemma AddRowNames(geo: Oracle, annotType: string, folders: seq<Folder>, row: InstanceRow)
    requires AddRow(geo, annotType, folders, row).Success?
    ensures var r := AddRow(geo, annotType, folders, row).value;
      && (forall f :: 0 <= f < |folders| ==> r[f].name == folders[f].name)
      && (|r| == |folders| || (|r| == |folders| + 1 && r[|folders|].name == row.first.folderName
                               && FolderIndex(folders, row.first.folderName).None?))
      && FolderIndex(r, row.first.folderName).Some?
      && (DistinctNames(folders) ==> DistinctNames(r))
  {
    var r := AddRow(geo, annotType, folders, row).value;
    var name := row.first.folderName;
    var f := if FolderIndex(folders, name).Some? then FolderIndex(folders, name).value else |folders|;
    assert r[f].name == name;
    FolderIndexFinds(r, f);
  }

  /** The folders have distinct names. */
  lemma {:induction false} CollectDistinct(geo: Oracle, annotType: string, image: Value, rows: seq<InstanceRow>)
    requires Collect(geo, annotType, image, rows).Success?
    ensures DistinctNames(Collect(geo, annotType, image, rows).value)
    decreases |rows|
  {
    if rows != [] {
      var init := rows[..|rows| - 1];
      CollectDistinct(geo, annotType, image, init);
      if rows[|rows| - 1].first.imageName == image {
        AddRowNames(geo, annotType, Collect(geo, annotType, image, init).value, rows[|rows| - 1]);
      }
    }
  }

  /** Each folder is the folder of some row of the image. */
  lemma {:induction false} CollectOrigin(geo: Oracle, annotType: string, image: Value, rows: seq<InstanceRow>)
    requires Collect(geo, annotType, image, rows).Success?
    ensures var folders := Collect(geo, annotType, image, rows).value;
      forall f :: 0 <= f < |folders| ==> HasFolder(image, rows, folders[f].name)
    decreases |rows|
  {
    if rows != [] {
      var init := rows[..|rows| - 1];
      var row := rows[|rows| - 1];
      CollectOrigin(geo, annotType, image, init);
      var before := Collect(geo, annotType, image, init).value;
      var after := Collect(geo, annotType, image, rows).value;
      if row.first.imageName == image {
        AddRowNames(geo, annotType, before, row);
      }
      forall f | 0 <= f < |after| ensures HasFolder(image, rows, after[f].name) {
        if f < |before| {
          assert HasFolder(image, init, before[f].name);
          var i :| 0 <= i < |init| && init[i].first.imageName == image && init[i].first.folderName == before[f].name;
          assert rows[i] == init[i];
        } else {
          assert rows[|rows| - 1] == row;
        }
      }
    }
  }

  /** Every row of the image has its folder. */
  lemma {:induction false} CollectComplete(geo: Oracle, annotType: string, image: Value, rows: seq<InstanceRow>)
    requires Collect(geo, annotType, image, rows).Success?
    ensures var folders := Collect(geo, annotType, image, rows).value;
      forall i :: 0 <= i < |rows| && rows[i].first.imageName == image ==> FolderIndex(folders, rows[i].first.folderName).Some?
    decreases |rows|
  {
    if rows != [] {
      var init := rows[..|rows| - 1];
      var row := rows[|rows| - 1];
      CollectComplete(geo, annotType, image, init);
      var before := Collect(geo, annotType, image, init).value;
      var after := Collect(geo, annotType, image, rows).value;
      if row.first.imageName == image {
        AddRowNames(geo, annotType, before, row);
      }
      forall i | 0 <= i < |rows| && rows[i].first.imageName == image
        ensures FolderIndex(after, rows[i].first.folderName).Some?
      {
        if i < |init| {
          assert rows[i] == init[i];
          var f := FolderIndex(before, rows[i].first.folderName).value;
          assert after[f].name == rows[i].first.folderName;
          FolderIndexFinds(after, f);
        }
      }
    }
  }

  /** A folder present by name is found by its name. */
  lemma FolderIndexFinds(folders: seq<Folder>, f: nat)
    requires f < |folders|
    ensures FolderIndex(folders, folders[f].name).Some?
  {
  }

  /** The instance a row contributes to its folder: its shape and cells, when the shape is valid. */
  function EntryFor(geo: Oracle, annotType: string, image: Value, name: Value, row: InstanceRow): (r: seq<Entry>)
    ensures |r| <= 1
  {
    if row.first.imageName == image && row.first.folderName == name && BuildShape(annotType, row.first.meta).Success?
       && geo.isValid(BuildShape(annotType, row.first.meta).value)
    then [Entry(BuildShape(annotType, row.first.meta).value, row.first.className, row.first.creatorEmail, row.attributes)]
    else []
  }

  /** The valid instances of the rows of `image` in folder `name`, in row order. */
  function ValidEntries(geo: Oracle, annotType: string, image: Value, rows: seq<InstanceRow>, name: Value): seq<Entry> {
    if rows == [] then []
    else ValidEntries(geo, annotType, image, rows[..|rows| - 1], name) + EntryFor(geo, annotType, image, name, rows[|rows| - 1])
  }

  /** A row of the image extends its own folder's list by its entry and leaves every other list alone. */
  lemma AddRowEntries(geo: Oracle, annotType: string, image: Value, folders: seq<Folder>, row: InstanceRow)
    requires DistinctNames(folders) && row.first.imageName == image
    requires AddRow(geo, annotType, folders, row).Success?
    ensures var r := AddRow(geo, annotType, folders, row).value;
      forall f :: 0 <= f < |r| ==>
        r[f].entries == (if f < |folders| then folders[f].entries else []) + EntryFor(geo, annotType, image, r[f].name, row)
  {
    var r := AddRow(geo, annotType, folders, row).value;
    AddRowNames(geo, annotType, folders, row);
    var name := row.first.folderName;
    var g := if FolderIndex(folders, name).Some? then FolderIndex(folders, name).value else |folders|;
    forall f | 0 <= f < |r|
      ensures r[f].entries == (if f < |folders| then folders[f].entries else []) + EntryFor(geo, annotType, image, r[f].name, row)
    {
      if f != g {
        assert r[f].name != name;
      }
    }
  }

  /** Each folder holds exactly the valid instances of its rows of the image, in row order. */
  lemma {:induction false} CollectEntries(geo: Oracle, annotType: string, image: Value, rows: seq<InstanceRow>)
    requires Collect(geo, annotType, image, rows).Success?
    ensures var folders := Collect(geo, annotType, image, rows).value;
      forall f :: 0 <= f < |folders| ==> folders[f].entries == ValidEntries(geo, annotType, image, rows, folders[f].name)
    decreases |rows|
  {
    if rows != [] {
      var init := rows[..|rows| - 1];
      var row := rows[|rows| - 1];
      CollectEntries(geo, annotType, image, init);
      CollectDistinct(geo, annotType, image, init);
      var before := Collect(geo, annotType, image, init).value;
      var after := Collect(geo, annotType, image, rows).value;
      if row.first.imageName == image {
        AddRowEntries(geo, annotType, image, before, row);
        AddRowNames(geo, annotType, before, row);
        forall f | 0 <= f < |after|
          ensures after[f].entries == ValidEntries(geo, annotType, image, rows, after[f].name)
        {
          if f >= |before| {
            ValidEntriesAbsent(geo, annotType, image, init, before, after[f].name);
          }
        }
      } else {
        forall f | 0 <= f < |after|
          ensures after[f].entries == ValidEntries(geo, annotType, image, rows, after[f].name)
        {
          assert EntryFor(geo, annotType, image, after[f].name, row) == [];
        }
      }
    }
  }

  /** A folder name the collection has not met yet has no valid instances so far. */
  lemma ValidEntriesAbsent(geo: Oracle, annotType: string, image: Value, rows: seq<InstanceRow>, folders: seq<Folder>,
                           name: Value)
    requires Collect(geo, annotType, image, rows) == Success(folders)
    requires FolderIndex(folders, name).None?
    ensures ValidEntries(geo, annotType, image, rows, name) == []
  {
    CollectComplete(geo, annotType, image, rows);
    ValidEntriesNone(geo, annotType, image, rows, name);
  }

  /** Without a row of the image in folder `name` the folder has no valid instances. */
  lemma {:induction false} ValidEntriesNone(geo: Oracle, annotType: string, image: Value, rows: seq<InstanceRow>, name: Value)
    requires !HasFolder(image, rows, name)
    ensures ValidEntries(geo, annotType, image, rows, name) == []
    decreases |rows|
  {
    if rows != [] {
      var init := rows[..|rows| - 1];
      assert forall i :: 0 <= i < |init| ==> init[i] == rows[i];
      ValidEntriesNone(geo, annotType, image, init, name);
    }
  }

  /** An instance shapely calls valid, of the kind the annotation type asks for. */
  predicate Collected(geo: Oracle, annotType: string, e: Entry) {
    && annotType in ["bbox", "polygon", "point"]
    && geo.isValid(e.shape)
    && (annotType == "point" ==> e.shape.Point?)
    && (annotType in ["bbox", "polygon"] ==> KindOf(e.shape) == PolygonKind)
  }

  /** Every collected instance is valid, and of the kind the annotation type asks for. */
  lemma {:induction false} ValidEntriesKinds(geo: Oracle, annotType: string, image: Value, rows: seq<InstanceRow>, name: Value)
    ensures forall k :: 0 <= k < |ValidEntries(geo, annotType, image, rows, name)| ==>
      Collected(geo, annotType, ValidEntries(geo, annotType, image, rows, name)[k])
    decreases |rows|
  {
    if rows != [] {
      ValidEntriesKinds(geo, annotType, image, rows[..|rows| - 1], name);
      var row := rows[|rows| - 1];
      var prev := ValidEntries(geo, annotType, image, rows[..|rows| - 1], name);
      var e := EntryFor(geo, annotType, image, name, row);
      assert ValidEntries(geo, annotType, image, rows, name) == prev + e;
      if e != [] {
        var shape := BuildShape(annotType, row.first.meta).value;
        assert e[0].shape == shape;
        assert annotType in ["bbox", "polygon"] ==> annotType == "bbox" || annotType == "polygon";
      }
    }
  }

  /** `image_consensus`: the scored rows of the instances of one image. */
  function ImageConsensus(geo: Oracle, annotType: string, df: seq<InstanceRow>, image: Value)
    : (r: Result<seq<ConsensusRecord>>)
  {
    var folders :- Collect(geo, annotType, image, df);
    var st :- Matches(geo, annotType, folders);
    MatchesInRange(geo, annotType, folders);
    Emit(geo, folders, image, |FolderNames(df)|, st.groups, |st.groups|)
  }

  /** A subset is no larger than its superset. */
  lemma {:induction false} SubsetSize<T>(a: set<T>, b: set<T>)
    requires a <= b
    ensures |a| <= |b|
    decreases |a|
  {
    if a != {} {
      var x :| x in a;
      SubsetSize(a - {x}, b - {x});
    }
  }

  /** Distinct names: the folders are as many as their names. */
  lemma {:induction false} NamesSize(folders: seq<Folder>)
    requires DistinctNames(folders)
    ensures |set f | 0 <= f < |folders| :: folders[f].name| == |folders|
    decreases |folders|
  {
    if folders != [] {
      var init := folders[..|folders| - 1];
      NamesSize(init);
      var last := folders[|folders| - 1].name;
      assert (set f | 0 <= f < |folders| :: folders[f].name) == (set f | 0 <= f < |init| :: init[f].name) + {last} by {
        forall f | 0 <= f < |init| ensures init[f].name == folders[f].name { }
      }
    }
  }

  /** A member list with increasing folders below `bound` has at most `bound` members. */
  lemma {:induction false} IncreasingSize(g: seq<Member>, bound: nat)
    requires forall k :: 0 <= k < |g| ==> g[k].folder < bound
    requires forall k, l :: 0 <= k < l < |g| ==> g[k].folder < g[l].folder
    ensures |g| <= bound
    decreases |g|
  {
    if g != [] {
      IncreasingSize(g[..|g| - 1], g[|g| - 1].folder);
    }
  }

  /** The image has no more folders than the frame has folder names. */
  lemma FoldersWithinNames(geo: Oracle, annotType: string, df: seq<InstanceRow>, image: Value)
    requires Collect(geo, annotType, image, df).Success?
    ensures |Collect(geo, annotType, image, df).value| <= |FolderNames(df)|
  {
    var folders := Collect(geo, annotType, image, df).value;
    CollectDistinct(geo, annotType, image, df);
    CollectOrigin(geo, annotType, image, df);
    NamesSize(folders);
    var names := set f | 0 <= f < |folders| :: folders[f].name;
    forall v | v in names ensures v in FolderNames(df) {
      var f :| 0 <= f < |folders| && folders[f].name == v;
      assert HasFolder(image, df, v);
      var i :| 0 <= i < |df| && df[i].first.imageName == image && df[i].first.folderName == v;
      assert df[i] in df;
    }
    SubsetSize(names, FolderNames(df));
  }

  /** A group has no more members than the frame has folder names. */
  lemma GroupWithinFolders(geo: Oracle, annotType: string, df: seq<InstanceRow>, image: Value, gs: seq<Match>, k: nat)
    requires Collect(geo, annotType, image, df).Success?
    requires Matches(geo, annotType, Collect(geo, annotType, image, df).value).Success?
    requires gs == Matches(geo, annotType, Collect(geo, annotType, image, df).value).value.groups && k < |gs|
    ensures |gs[k].members| <= |FolderNames(df)|
  {
    var folders := Collect(geo, annotType, image, df).value;
    GroupSize(geo, annotType, folders, k);
    FoldersWithinNames(geo, annotType, df, image);
  }

  /** A group has at most one member per folder. */
  lemma GroupSize(geo: Oracle, annotType: string, folders: seq<Folder>, k: nat)
    requires Matches(geo, annotType, folders).Success? && k < |Matches(geo, annotType, folders).value.groups|
    ensures |Matches(geo, annotType, folders).value.groups[k].members| <= |folders|
  {
    var g := Matches(geo, annotType, folders).value.groups[k].members;
    MatchesPartition(geo, annotType, folders);
    assert forall j :: 0 <= j < |g| ==> InRange(folders, g[j]);
    IncreasingSize(g, |folders|);
  }

  // ----- the rows of one image -----

  /** The rows of group `g` with id `id`: one per member, in order, each scored as `Scored` says. */
  ghost predicate GroupRows(geo: Oracle, folders: seq<Folder>, image: Value, projects: nat, g: seq<Member>, id: nat,
                            rows: seq<ConsensusRecord>)
    requires forall k :: 0 <= k < |g| ==> InRange(folders, g[k])
  {
    |rows| == |g| && forall j :: 0 <= j < |g| ==> Scored(geo, folders, image, projects, g, id, j, rows[j])
  }

  /** The rows of all groups: ids in group order, and the rows with id `k` are group `k`'s. */
  lemma EmitRows(geo: Oracle, folders: seq<Folder>, image: Value, projects: nat, gs: seq<Match>)
    requires GroupsInRange(folders, gs) && forall k :: 0 <= k < |gs| ==> |gs[k].members| > 0
    requires Emit(geo, folders, image, projects, gs, |gs|).Success?
    ensures var rs := Emit(geo, folders, image, projects, gs, |gs|).value;
      && (forall i :: 0 <= i < |rs| ==> rs[i].instanceId < |gs|)
      && (forall i, j :: 0 <= i < j < |rs| ==> rs[i].instanceId <= rs[j].instanceId)
      && (forall k :: 0 <= k < |gs| ==> GroupRows(geo, folders, image, projects, gs[k].members, k, WithId(rs, k)))
  {
    var rs := Emit(geo, folders, image, projects, gs, |gs|).value;
    EmitSucceeds(geo, folders, image, projects, gs, |gs|);
    EmitOrder(geo, folders, image, projects, gs, |gs|);
    EmitBlocks(geo, folders, image, projects, gs, |gs|);
    forall k | 0 <= k < |gs| ensures GroupRows(geo, folders, image, projects, gs[k].members, k, WithId(rs, k)) {
      GroupRecordsExact(geo, folders, image, projects, gs[k].members, k);
    }
  }

  /**
   * The rows of an image: the instance ids are the group numbers in order,
   * and the rows with id `k` are group `k`'s members, each scored as
   * `Scored` says with the frame's folder count.
   */
  lemma ImageConsensusRows(geo: Oracle, annotType: string, df: seq<InstanceRow>, image: Value)
    requires ImageConsensus(geo, annotType, df, image).Success?
    ensures Collect(geo, annotType, image, df).Success?
    ensures Matches(geo, annotType, Collect(geo, annotType, image, df).value).Success?
    ensures var folders := Collect(geo, annotType, image, df).value;
      var gs := Matches(geo, annotType, folders).value.groups;
      var rs := ImageConsensus(geo, annotType, df, image).value;
      && GroupsInRange(folders, gs)
      && (forall i :: 0 <= i < |rs| ==> rs[i].instanceId < |gs|)
      && (forall i, j :: 0 <= i < j < |rs| ==> rs[i].instanceId <= rs[j].instanceId)
      && (forall k :: 0 <= k < |gs| ==> GroupRows(geo, folders, image, |FolderNames(df)|, gs[k].members, k, WithId(rs, k)))
  {
    var folders := Collect(geo, annotType, image, df).value;
    var gs := Matches(geo, annotType, folders).value.groups;
    MatchesPartition(geo, annotType, folders);
    assert ImageConsensus(geo, annotType, df, image) == Emit(geo, folders, image, |FolderNames(df)|, gs, |gs|);
    assert forall k :: 0 <= k < |gs| ==> |gs[k].members| > 0;
    EmitRows(geo, folders, image, |FolderNames(df)|, gs);
  }

  /** Every collected instance is valid and of the requested kind. */
  lemma CollectKinds(geo: Oracle, annotType: string, image: Value, rows: seq<InstanceRow>)
    requires Collect(geo, annotType, image, rows).Success?
    ensures var folders := Collect(geo, annotType, image, rows).value;
      forall m :: InRange(folders, m) ==> Collected(geo, annotType, EntryOf(folders, m))
  {
    var folders := Collect(geo, annotType, image, rows).value;
    CollectEntries(geo, annotType, image, rows);
    forall m | InRange(folders, m) ensures Collected(geo, annotType, EntryOf(folders, m)) {
      ValidEntriesKinds(geo, annotType, image, rows, folders[m.folder].name);
    }
  }

  // ----- the one error left once the shapes are collected -----

  /** Every instance of the folders is a collected one. */
  ghost predicate AllCollected(geo: Oracle, annotType: string, folders: seq<Folder>) {
    forall m :: InRange(folders, m) ==> Collected(geo, annotType, EntryOf(folders, m))
  }

  /** Two collected instances are of one kind, so their score fails only on a union of area 0. */
  lemma ScoreError(geo: Oracle, annotType: string, a: Entry, b: Entry)
    requires Collected(geo, annotType, a) && Collected(geo, annotType, b)
    requires InstanceConsensus(geo, a.shape, b.shape).Failure?
    ensures InstanceConsensus(geo, a.shape, b.shape).error == ZeroDivision
  {
  }

  lemma {:induction false} ScanError(geo: Oracle, annotType: string, leader: Entry, entries: seq<Entry>, visited: seq<bool>,
                                     n: nat)
    requires n <= |entries| == |visited|
    requires Collected(geo, annotType, leader) && forall k :: 0 <= k < |entries| ==> Collected(geo, annotType, entries[k])
    requires Scan(geo, annotType, leader, entries, visited, n).Failure?
    ensures Scan(geo, annotType, leader, entries, visited, n).error == ZeroDivision
    decreases n
  {
    if Scan(geo, annotType, leader, entries, visited, n - 1).Failure? {
      ScanError(geo, annotType, leader, entries, visited, n - 1);
    } else {
      ScoreError(geo, annotType, leader, entries[n - 1]);
    }
  }

  /** A group of collected instances fails to form only on a union of area 0. */
  lemma {:induction false} GatherError(geo: Oracle, annotType: string, folders: seq<Folder>, visited: seq<seq<bool>>,
                                       leader: Member, n: nat)
    requires Shaped(visited, folders) && InRange(folders, leader) && n <= |folders|
    requires AllCollected(geo, annotType, folders)
    requires Gather(geo, annotType, folders, visited, leader, n).Failure?
    ensures Gather(geo, annotType, folders, visited, leader, n).error == ZeroDivision
    decreases n
  {
    if Gather(geo, annotType, folders, visited, leader, n - 1).Failure? {
      GatherError(geo, annotType, folders, visited, leader, n - 1);
    } else {
      var entries := folders[n - 1].entries;
      forall k | 0 <= k < |entries| ensures Collected(geo, annotType, entries[k]) {
        assert InRange(folders, Member(n - 1, k));
      }
      ScanError(geo, annotType, EntryOf(folders, leader), entries, visited[n - 1], |entries|);
    }
  }

  lemma {:induction false} RunError(geo: Oracle, annotType: string, folders: seq<Folder>, ps: seq<Member>, n: nat)
    requires n <= |ps| && forall k :: 0 <= k < |ps| ==> InRange(folders, ps[k])
    requires AllCollected(geo, annotType, folders)
    requires Run(geo, annotType, folders, ps, n).Failure?
    ensures Run(geo, annotType, folders, ps, n).error == ZeroDivision
    decreases n
  {
    var prev := Run(geo, annotType, folders, ps, n - 1);
    if prev.Failure? {
      RunError(geo, annotType, folders, ps, n - 1);
    } else {
      GatherError(geo, annotType, folders, prev.value.visited, ps[n - 1], |folders|);
    }
  }

  lemma {:induction false} AgreementError(geo: Oracle, annotType: string, folders: seq<Folder>, g: seq<Member>, m: Member,
                                          n: nat)
    requires n <= |g| && InRange(folders, m) && forall k :: 0 <= k < |g| ==> InRange(folders, g[k])
    requires AllCollected(geo, annotType, folders)
    requires Agreement(geo, folders, g, m, n).Failure?
    ensures Agreement(geo, folders, g, m, n).error == ZeroDivision
    decreases n
  {
    if Agreement(geo, folders, g, m, n - 1).Failure? {
      AgreementError(geo, annotType, folders, g, m, n - 1);
    } else {
      ScoreError(geo, annotType, EntryOf(folders, m), EntryOf(folders, g[n - 1]));
    }
  }

  /** The rows of a group of collected instances fail only by a division by zero. */
  lemma {:induction false} MemberRecordsError(geo: Oracle, annotType: string, folders: seq<Folder>, image: Value,
                                              projects: nat, g: seq<Member>, id: nat, n: nat)
    requires n <= |g| && forall k :: 0 <= k < |g| ==> InRange(folders, g[k])
    requires AllCollected(geo, annotType, folders)
    requires MemberRecords(geo, folders, image, projects, g, id, n).Failure?
    ensures MemberRecords(geo, folders, image, projects, g, id, n).error == ZeroDivision
    decreases n
  {
    if MemberRecords(geo, folders, image, projects, g, id, n - 1).Failure? {
      MemberRecordsError(geo, annotType, folders, image, projects, g, id, n - 1);
    } else if Agreement(geo, folders, g, g[n - 1], |g|).Failure? {
      AgreementError(geo, annotType, folders, g, g[n - 1], |g|);
    }
  }

  lemma GroupRecordsError(geo: Oracle, annotType: string, folders: seq<Folder>, image: Value, projects: nat,
                          g: seq<Member>, id: nat)
    requires forall k :: 0 <= k < |g| ==> InRange(folders, g[k])
    requires AllCollected(geo, annotType, folders)
    requires GroupRecords(geo, folders, image, projects, g, id).Failure?
    ensures GroupRecords(geo, folders, image, projects, g, id).error == ZeroDivision
  {
    MemberRecordsError(geo, annotType, folders, image, projects, g, id, |g|);
  }

  lemma {:induction false} EmitError(geo: Oracle, annotType: string, folders: seq<Folder>, image: Value, projects: nat,
                                     gs: seq<Match>, n: nat)
    requires n <= |gs| && GroupsInRange(folders, gs)
    requires AllCollected(geo, annotType, folders)
    requires Emit(geo, folders, image, projects, gs, n).Failure?
    ensures Emit(geo, folders, image, projects, gs, n).error == ZeroDivision
    decreases n
  {
    if Emit(geo, folders, image, projects, gs, n - 1).Failure? {
      EmitError(geo, annotType, folders, image, projects, gs, n - 1);
    } else {
      GroupRecordsError(geo, annotType, folders, image, projects, gs[n - 1].members, n - 1);
    }
  }

  /**
   * Past the collection of its shapes, an image fails only with a division
   * by zero: the collected instances of an image are all of one kind, so no
   * pair of them is NotImplemented.
   */
  lemma ImageConsensusError(geo: Oracle, annotType: string, df: seq<InstanceRow>, image: Value)
    requires Collect(geo, annotType, image, df).Success?
    requires ImageConsensus(geo, annotType, df, image).Failure?
    ensures ImageConsensus(geo, annotType, df, image).error == ZeroDivision
  {
    var folders := Collect(geo, annotType, image, df).value;
    CollectKinds(geo, annotType, image, df);
    var ps := Positions(folders, |folders|);
    if Run(geo, annotType, folders, ps, |ps|).Failure? {
      RunError(geo, annotType, folders, ps, |ps|);
    } else {
      var gs := Matches(geo, annotType, folders).value.groups;
      MatchesPartition(geo, annotType, folders);
      EmitError(geo, annotType, folders, image, |FolderNames(df)|, gs, |gs|);
    }
  }

  /** A fraction whose numerator is at most its positive denominator lies in [0, 1]. */
  lemma FractionRange(a: real, b: real, c: real)
    requires 0.0 <= a <= b <= c && 0.0 < c
    ensures 0.0 <= a / c <= b / c <= 1.0
  {
  }

  /**
   * The scores of a group of `size` members in a frame of `projects`
   * folders: each in [0, 1]; a lone member scores 0; a shared group needs two
   * folders or more, and between points every member scores
   * (size - 1) / (projects - 1).
   */
  ghost predicate Scores(annotType: string, projects: nat, size: nat, rows: seq<ConsensusRecord>) {
    && |rows| == size
    && (forall j :: 0 <= j < |rows| ==> 0.0 <= rows[j].score <= 1.0)
    && (size == 1 ==> rows[0].score == 0.0)
    && (size > 1 ==> projects > 1)
    && (size > 1 && annotType == "point" ==>
          forall j :: 0 <= j < |rows| ==> rows[j].score == (size - 1) as real / (projects - 1) as real)
  }

  /** Under shapely's laws the rows of a group score as `Scores` says. */
  lemma GroupScores(geo: Oracle, annotType: string, folders: seq<Folder>, image: Value, projects: nat, g: seq<Member>,
                    id: nat, rows: seq<ConsensusRecord>)
    requires Lawful(geo) && DistinctNames(folders)
    requires |g| > 0 && forall k :: 0 <= k < |g| ==> InRange(folders, g[k])
    requires forall k, l :: 0 <= k < l < |g| ==> g[k].folder < g[l].folder
    requires forall k :: 0 <= k < |g| ==> Collected(geo, annotType, EntryOf(folders, g[k]))
    requires |g| <= projects && GroupRows(geo, folders, image, projects, g, id, rows)
    ensures Scores(annotType, projects, |g|, rows)
  {
    if |g| > 1 {
      forall j | 0 <= j < |g|
        ensures 0.0 <= rows[j].score <= 1.0
        ensures annotType == "point" ==> rows[j].score == (|g| - 1) as real / (projects - 1) as real
      {
        assert Scored(geo, folders, image, projects, g, id, j, rows[j]);
        var a := Agreement(geo, folders, g, g[j], |g|).value;
        AgreementRange(geo, folders, g, g[j], |g|);
        OthersCount(folders, g, j, |g|);
        assert rows[j].score == a / (projects - 1) as real;
        FractionRange(a, (|g| - 1) as real, (projects - 1) as real);
        assert annotType == "point" ==> EntryOf(folders, g[j]).shape.Point?;
      }
    } else {
      assert Scored(geo, folders, image, projects, g, id, 0, rows[0]);
    }
  }

  /** Under shapely's laws the rows of group `k` of an image score as `Scores` says. */
  lemma ImageGroupScores(geo: Oracle, annotType: string, df: seq<InstanceRow>, image: Value, k: nat)
    requires Lawful(geo) && ImageConsensus(geo, annotType, df, image).Success?
    requires Collect(geo, annotType, image, df).Success?
    requires Matches(geo, annotType, Collect(geo, annotType, image, df).value).Success?
    requires k < |Matches(geo, annotType, Collect(geo, annotType, image, df).value).value.groups|
    ensures var g := Matches(geo, annotType, Collect(geo, annotType, image, df).value).value.groups[k].members;
      Scores(annotType, |FolderNames(df)|, |g|, WithId(ImageConsensus(geo, annotType, df, image).value, k))
  {
    var folders := Collect(geo, annotType, image, df).value;
    var gs := Matches(geo, annotType, folders).value.groups;
    ImageConsensusRows(geo, annotType, df, image);
    MatchesPartition(geo, annotType, folders);
    CollectDistinct(geo, annotType, image, df);
    CollectKinds(geo, annotType, image, df);
    GroupWithinFolders(geo, annotType, df, image, gs, k);
    assert gs[k].leader in gs[k].members;
    GroupScores(geo, annotType, folders, image, |FolderNames(df)|, gs[k].members, k,
                WithId(ImageConsensus(geo, annotType, df, image).value, k));
  }

  /**
   * The scores of an image, group by group: under shapely's laws each lies
   * in [0, 1]; a lone instance scores 0; a shared point instance scores
   * (k - 1) / (F - 1), k its group's size and F the frame's folder count.
   */
  lemma ImageConsensusScores(geo: Oracle, annotType: string, df: seq<InstanceRow>, image: Value)
    requires Lawful(geo) && ImageConsensus(geo, annotType, df, image).Success?
    ensures Collect(geo, annotType, image, df).Success?
    ensures Matches(geo, annotType, Collect(geo, annotType, image, df).value).Success?
    ensures var gs := Matches(geo, annotType, Collect(geo, annotType, image, df).value).value.groups;
      forall k :: 0 <= k < |gs| ==>
        Scores(annotType, |FolderNames(df)|, |gs[k].members|, WithId(ImageConsensus(geo, annotType, df, image).value, k))
  {
    ImageConsensusRows(geo, annotType, df, image);
    var gs := Matches(geo, annotType, Collect(geo, annotType, image, df).value).value.groups;
    forall k | 0 <= k < |gs|
      ensures Scores(annotType, |FolderNames(df)|, |gs[k].members|, WithId(ImageConsensus(geo, annotType, df, image).value, k))
    {
      ImageGroupScores(geo, annotType, df, image, k);
    }
  }

  /** Every member of a shared group can be scored against the others. */
  ghost predicate Scoreable(geo: Oracle, folders: seq<Folder>, g: seq<Member>)
    requires forall k :: 0 <= k < |g| ==> InRange(folders, g[k])
  {
    |g| == 1 || forall j :: 0 <= j < |g| ==> Agreement(geo, folders, g, g[j], |g|).Success?
  }

  /** With no group larger than the folder count, emission fails iff a shared group cannot be scored. */
  lemma EmitScoreable(geo: Oracle, folders: seq<Folder>, image: Value, projects: nat, gs: seq<Match>)
    requires GroupsInRange(folders, gs)
    requires forall k :: 0 <= k < |gs| ==> 0 < |gs[k].members| <= projects
    ensures Emit(geo, folders, image, projects, gs, |gs|).Success? <==>
      forall k :: 0 <= k < |gs| ==> Scoreable(geo, folders, gs[k].members)
  {
    EmitSucceeds(geo, folders, image, projects, gs, |gs|);
    forall k | 0 <= k < |gs|
      ensures GroupRecords(geo, folders, image, projects, gs[k].members, k).Success? <==> Scoreable(geo, folders, gs[k].members)
    {
      GroupRecordsExact(geo, folders, image, projects, gs[k].members, k);
    }
  }

  /**
   * Once folders and groups are formed, the rows of an image fail only when
   * a member of a shared group cannot be scored; the division by the folder
   * count never fails, since a shared group spans two folders or more.
   */
  lemma ImageConsensusFails(geo: Oracle, annotType: string, df: seq<InstanceRow>, image: Value)
    requires Collect(geo, annotType, image, df).Success?
    requires Matches(geo, annotType, Collect(geo, annotType, image, df).value).Success?
    ensures var folders := Collect(geo, annotType, image, df).value;
      var gs := Matches(geo, annotType, folders).value.groups;
      && GroupsInRange(folders, gs)
      && (ImageConsensus(geo, annotType, df, image).Success? <==>
            forall k :: 0 <= k < |gs| ==> Scoreable(geo, folders, gs[k].members))
  {
    var folders := Collect(geo, annotType, image, df).value;
    var gs := Matches(geo, annotType, folders).value.groups;
    MatchesPartition(geo, annotType, folders);
    assert ImageConsensus(geo, annotType, df, image) == Emit(geo, folders, image, |FolderNames(df)|, gs, |gs|);
    forall k | 0 <= k < |gs| ensures 0 < |gs[k].members| <= |FolderNames(df)| {
      assert gs[k].leader in gs[k].members;
      GroupWithinFolders(geo, annotType, df, image, gs, k);
    }
    EmitScoreable(geo, folders, image, |FolderNames(df)|, gs);
  }
}

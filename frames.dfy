/**
 * The frame operations of the Consensus and Benchmark pipelines: the row
 * filters, and `aggregate_attributes`, which collapses the attribute rows of
 * one instance into a single row whose `attributes` cell maps each
 * attribute group to its attribute names.
 */
module Frames {
  import opened Values
  import opened Table

  /** The rows of `rows` that `keep` accepts, in their order (a boolean mask). */
  function Where(rows: seq<Record>, keep: Record -> bool): (r: seq<Record>)
    ensures |r| <= |rows|
  {
    if rows == [] then []
    else Where(rows[..|rows| - 1], keep) + (if keep(rows[|rows| - 1]) then [rows[|rows| - 1]] else [])
  }

  /** A row survives the mask exactly when it is a row of the input that the mask accepts. */
  lemma {:induction false} WhereExact(rows: seq<Record>, keep: Record -> bool)
    ensures forall x :: x in Where(rows, keep) <==> x in rows && keep(x)
  {
    if rows != [] {
      var front := rows[..|rows| - 1];
      WhereExact(front, keep);
      assert rows == front + [rows[|rows| - 1]];
    }
  }

  /** Masking a concatenation masks each part (`pd.concat` then filter). */
  lemma {:induction false} WhereConcat(a: seq<Record>, b: seq<Record>, keep: Record -> bool)
    ensures Where(a + b, keep) == Where(a, keep) + Where(b, keep)
    decreases |b|
  {
    if b == [] {
      assert a + b == a;
    } else {
      var front := b[..|b| - 1];
      WhereConcat(a, front, keep);
      assert (a + b)[..|a + b| - 1] == a + front;
      assert (a + b)[|a + b| - 1] == b[|b| - 1];
    }
  }

  /** Two masks applied one after the other are the mask of their conjunction. */
  lemma {:induction false} WhereWhere(rows: seq<Record>, p: Record -> bool, q: Record -> bool)
    ensures Where(Where(rows, p), q) == Where(rows, (x: Record) => p(x) && q(x))
  {
    if rows != [] {
      var front := rows[..|rows| - 1];
      var last := rows[|rows| - 1];
      WhereWhere(front, p, q);
      WhereConcat(Where(front, p), if p(last) then [last] else [], q);
      assert Where([last], q) == (if q(last) then [last] else []) by {
        assert [last][..0] == [];
      }
    }
  }

  /** `column.isin(names)` for a list of strings. */
  predicate InNames(v: Value, names: seq<string>) {
    v.Str? && v.s in names
  }

  /** What the Consensus pipeline keeps of the aggregated frame. */
  predicate ConsensusKeeps(r: Record, folderNames: seq<string>, imageList: Option<seq<string>>, annotType: string) {
    && r.instanceId != Null
    && InNames(r.folderName, folderNames)
    && (imageList.Some? ==> InNames(r.imageName, imageList.value))
    && r.annotationType == Str(annotType)
  }

  /** The Consensus filters, one mask after another as the source applies them. */
  function ConsensusRows(df: seq<Record>, folderNames: seq<string>, imageList: Option<seq<string>>,
                         annotType: string): seq<Record>
  {
    var withIds := Where(df, (r: Record) => r.instanceId != Null);
    var inFolders := Where(withIds, (r: Record) => InNames(r.folderName, folderNames));
    var inImages := if imageList.Some? then Where(inFolders, (r: Record) => InNames(r.imageName, imageList.value))
                    else inFolders;
    Where(inImages, (r: Record) => r.annotationType == Str(annotType))
  }

  /** Three masks one after the other select what their conjunction selects. */
  lemma WhereThree(rows: seq<Record>, p: Record -> bool, q: Record -> bool, t: Record -> bool, keep: Record -> bool)
    requires forall x :: keep(x) == (p(x) && q(x) && t(x))
    ensures Where(Where(Where(rows, p), q), t) == Where(rows, keep)
  {
    WhereWhere(rows, p, q);
    var pq: Record -> bool := (x: Record) => p(x) && q(x);
    WhereWhere(rows, pq, t);
    WhereSame(rows, (x: Record) => pq(x) && t(x), keep);
  }

  /** Four masks one after the other select what their conjunction selects. */
  lemma WhereFour(rows: seq<Record>, p: Record -> bool, q: Record -> bool, t: Record -> bool, u: Record -> bool,
                  keep: Record -> bool)
    requires forall x :: keep(x) == (p(x) && q(x) && t(x) && u(x))
    ensures Where(Where(Where(Where(rows, p), q), t), u) == Where(rows, keep)
  {
    var pqt: Record -> bool := (x: Record) => p(x) && q(x) && t(x);
    WhereThree(rows, p, q, t, pqt);
    WhereWhere(rows, pqt, u);
    WhereSame(rows, (x: Record) => pqt(x) && u(x), keep);
  }

  /**
   * The Consensus frame holds the aggregated rows with an instance id, of a
   * requested folder, of a listed image when a list is given, and of the
   * requested type, in their order.
   */
  lemma ConsensusRowsExact(df: seq<Record>, folderNames: seq<string>, imageList: Option<seq<string>>, annotType: string)
    ensures ConsensusRows(df, folderNames, imageList, annotType)
         == Where(df, (r: Record) => ConsensusKeeps(r, folderNames, imageList, annotType))
  {
    var p1: Record -> bool := (r: Record) => r.instanceId != Null;
    var p2: Record -> bool := (r: Record) => InNames(r.folderName, folderNames);
    var p4: Record -> bool := (r: Record) => r.annotationType == Str(annotType);
    var keep: Record -> bool := (r: Record) => ConsensusKeeps(r, folderNames, imageList, annotType);
    if imageList.Some? {
      var p3: Record -> bool := (r: Record) => InNames(r.imageName, imageList.value);
      assert ConsensusRows(df, folderNames, imageList, annotType) == Where(Where(Where(Where(df, p1), p2), p3), p4);
      WhereFour(df, p1, p2, p3, p4, keep);
    } else {
      assert ConsensusRows(df, folderNames, imageList, annotType) == Where(Where(Where(df, p1), p2), p4);
      WhereThree(df, p1, p2, p4, keep);
    }
  }

  /** Masks that agree on every row select the same rows. */
  lemma {:induction false} WhereSame(rows: seq<Record>, p: Record -> bool, q: Record -> bool)
    requires forall x :: p(x) == q(x)
    ensures Where(rows, p) == Where(rows, q)
  {
    if rows != [] {
      WhereSame(rows[..|rows| - 1], p, q);
    }
  }

  /** What the Benchmark pipeline keeps of the concatenated folder and ground-truth rows. */
  predicate BenchmarkKeeps(r: Record, imageList: Option<seq<string>>, annotType: string) {
    && r.instanceId != Null
    && (imageList.Some? ==> InNames(r.imageName, imageList.value))
    && r.annotationType == Str(annotType)
  }

  /**
   * The Benchmark frame of one folder: that folder's rows followed by the
   * ground truth's, with the same three masks as the Consensus pipeline
   * except the folder one.
   */
  function BenchmarkRows(df: seq<Record>, groundTruth: string, folder: string, imageList: Option<seq<string>>,
                         annotType: string): seq<Record>
  {
    var gt := Where(df, (r: Record) => r.folderName == Str(groundTruth));
    var folderRows := Where(df, (r: Record) => r.folderName == Str(folder));
    var withIds := Where(folderRows + gt, (r: Record) => r.instanceId != Null);
    var inImages := if imageList.Some? then Where(withIds, (r: Record) => InNames(r.imageName, imageList.value))
                    else withIds;
    Where(inImages, (r: Record) => r.annotationType == Str(annotType))
  }

  /**
   * The Benchmark frame of a folder is its kept rows followed by the kept
   * ground-truth rows; a folder that is the ground truth itself occurs twice.
   */
  lemma BenchmarkRowsExact(df: seq<Record>, groundTruth: string, folder: string, imageList: Option<seq<string>>,
                           annotType: string)
    ensures var keep := (r: Record) => BenchmarkKeeps(r, imageList, annotType);
      BenchmarkRows(df, groundTruth, folder, imageList, annotType)
        == Where(Where(df, (r: Record) => r.folderName == Str(folder)), keep)
         + Where(Where(df, (r: Record) => r.folderName == Str(groundTruth)), keep)
  {
    var keep: Record -> bool := (r: Record) => BenchmarkKeeps(r, imageList, annotType);
    var gt := Where(df, (r: Record) => r.folderName == Str(groundTruth));
    var folderRows := Where(df, (r: Record) => r.folderName == Str(folder));
    var p1: Record -> bool := (r: Record) => r.instanceId != Null;
    var p3: Record -> bool := (r: Record) => r.annotationType == Str(annotType);
    var rows := folderRows + gt;
    if imageList.Some? {
      var p2: Record -> bool := (r: Record) => InNames(r.imageName, imageList.value);
      assert BenchmarkRows(df, groundTruth, folder, imageList, annotType) == Where(Where(Where(rows, p1), p2), p3);
      WhereThree(rows, p1, p2, p3, keep);
    } else {
      assert BenchmarkRows(df, groundTruth, folder, imageList, annotType) == Where(Where(rows, p1), p3);
      WhereWhere(rows, p1, p3);
      WhereSame(rows, (x: Record) => p1(x) && p3(x), keep);
    }
    WhereConcat(folderRows, gt, keep);
  }

  /** The `attributes` cell of an aggregated instance: None, or each attribute group's attribute names. */
  type Attributes = Option<map<Value, seq<Value>>>

  /**
   * One row of the frame `aggregate_attributes` returns: the cells of the
   * instance's first row, without the two attribute columns (None here),
   * and the `attributes` cell.
   */
  datatype InstanceRow = InstanceRow(first: Record, attributes: Attributes)

  /** The groupby key `(imageName, instanceId, folderName)`. */
  datatype GroupKey = GroupKey(imageName: Value, instanceId: Value, folderName: Value)

  function KeyOf(r: Record): GroupKey {
    GroupKey(r.imageName, r.instanceId, r.folderName)
  }

  /** groupby leaves out the rows whose key holds a None. */
  predicate Dropped(k: GroupKey) {
    k.imageName == Null || k.instanceId == Null || k.folderName == Null
  }

  /** A row one of the two groupbys cannot hash (TypeError). */
  predicate Unhashed(r: Record) {
    Unhashable(r.imageName) || Unhashable(r.instanceId) || Unhashable(r.folderName) || Unhashable(r.attributeGroupName)
  }

  /** The keys of the groups, in the order their first rows occur. */
  function GroupKeys(rows: seq<Record>): (ks: seq<GroupKey>)
    ensures forall i, j :: 0 <= i < j < |ks| ==> ks[i] != ks[j]
  {
    if rows == [] then []
    else
      var ks := GroupKeys(rows[..|rows| - 1]);
      var k := KeyOf(rows[|rows| - 1]);
      if Dropped(k) || k in ks then ks else ks + [k]
  }

  /** Some row has key `k`. */
  predicate Carries(rows: seq<Record>, k: GroupKey) {
    exists i | 0 <= i < |rows| :: KeyOf(rows[i]) == k
  }

  /** The groups are exactly the keys without a None that some row carries. */
  lemma {:induction false} GroupKeysExact(rows: seq<Record>)
    ensures forall k :: k in GroupKeys(rows) <==> !Dropped(k) && Carries(rows, k)
  {
    if rows != [] {
      var front := rows[..|rows| - 1];
      GroupKeysExact(front);
      forall k ensures Carries(rows, k) <==> (KeyOf(rows[|rows| - 1]) == k || Carries(front, k)) {
        if Carries(rows, k) {
          var i :| 0 <= i < |rows| && KeyOf(rows[i]) == k;
          if i < |front| {
            assert KeyOf(front[i]) == k;
          }
        }
        if Carries(front, k) {
          var i :| 0 <= i < |front| && KeyOf(front[i]) == k;
          assert KeyOf(rows[i]) == k;
        }
      }
    }
  }

  /** The rows of one group, in order. */
  function Members(rows: seq<Record>, k: GroupKey): seq<Record> {
    Where(rows, (r: Record) => KeyOf(r) == k)
  }

  /** Every group has rows. */
  lemma MembersNonEmpty(rows: seq<Record>, k: GroupKey)
    requires k in GroupKeys(rows)
    ensures |Members(rows, k)| > 0
  {
    GroupKeysExact(rows);
    var i :| 0 <= i < |rows| && KeyOf(rows[i]) == k;
    WhereExact(rows, (r: Record) => KeyOf(r) == k);
    assert rows[i] in Members(rows, k);
  }

  /** The attribute names of some rows, in order (`list(attribute_df["attributeName"])`). */
  function Names(rows: seq<Record>): (names: seq<Value>)
    ensures |names| == |rows| && forall i :: 0 <= i < |rows| ==> names[i] == rows[i].attributeName
  {
    seq(|rows|, i requires 0 <= i < |rows| => rows[i].attributeName)
  }

  /** The attribute groups some rows name. */
  function Groups(rows: seq<Record>): set<Value> {
    set r | r in rows :: r.attributeGroupName
  }

  /**
   * `aggregate_attributes` on one group: its first row without the attribute
   * columns, and unless every attributeGroupName is None, the dict from each
   * group to the attribute names of its rows.
   */
  function Collapse(group: seq<Record>): InstanceRow
    requires |group| > 0
  {
    var named := Where(group, (r: Record) => r.attributeGroupName != Null);
    var attributes := if named == [] then None
                      else Some(map g | g in Groups(named) :: Names(Where(named, (r: Record) => r.attributeGroupName == g)));
    InstanceRow(group[0].(attributeGroupName := Null, attributeName := Null), attributes)
  }

  /**
   * The attributes of a collapsed instance are None exactly when none of its
   * rows names a group; otherwise they hold every group some row names, each
   * with the attribute names of that group's rows in row order.
   */
  lemma CollapseExact(group: seq<Record>)
    requires |group| > 0
    ensures KeyOf(Collapse(group).first) == KeyOf(group[0])
    ensures Collapse(group).attributes.None? <==> forall r :: r in group ==> r.attributeGroupName == Null
    ensures Collapse(group).attributes.Some? ==>
      && (forall g :: g in Collapse(group).attributes.value <==>
            g != Null && exists r :: r in group && r.attributeGroupName == g)
      && (forall g :: g in Collapse(group).attributes.value ==>
            Collapse(group).attributes.value[g] == Names(Where(group, (r: Record) => r.attributeGroupName == g)))
  {
    var notNull: Record -> bool := (r: Record) => r.attributeGroupName != Null;
    var named := Where(group, notNull);
    WhereExact(group, notNull);
    if named != [] {
      forall g | g in Groups(named)
        ensures Where(named, (r: Record) => r.attributeGroupName == g)
             == Where(group, (r: Record) => r.attributeGroupName == g)
      {
        var isG: Record -> bool := (r: Record) => r.attributeGroupName == g;
        WhereWhere(group, notNull, isG);
        WhereSame(group, (x: Record) => notNull(x) && isG(x), isG);
      }
    } else {
      forall r | r in group ensures r.attributeGroupName == Null {
        assert !(r in named);
      }
    }
  }

  /**
   * `groupby(["imageName", "instanceId", "folderName"]).apply(aggregate_attributes)`:
   * one collapsed row per group, the groups in the order their first rows occur.
   */
  function AggregateAttributes(rows: seq<Record>): (r: Result<seq<InstanceRow>>)
    ensures r.Failure? <==> exists i | 0 <= i < |rows| :: Unhashed(rows[i])
    ensures r.Failure? ==> r.error == Malformed
  {
    if exists i | 0 <= i < |rows| :: Unhashed(rows[i]) then Failure(Malformed)
    else
      var ks := GroupKeys(rows);
      Success(seq(|ks|, i requires 0 <= i < |ks| => MembersNonEmpty(rows, ks[i]); Collapse(Members(rows, ks[i]))))
  }

  /**
   * One row per (imageName, instanceId, folderName): the collapsed rows
   * have pairwise distinct keys, and every row whose key holds no None is
   * represented by the row of its group, which is that group's collapse.
   */
  lemma AggregateAttributesGroups(rows: seq<Record>)
    requires AggregateAttributes(rows).Success?
    ensures var out := AggregateAttributes(rows).value;
      && (forall i, j :: 0 <= i < j < |out| ==> KeyOf(out[i].first) != KeyOf(out[j].first))
      && (forall r :: r in rows && !Dropped(KeyOf(r)) ==>
            && |Members(rows, KeyOf(r))| > 0
            && exists i :: 0 <= i < |out| && KeyOf(out[i].first) == KeyOf(r)
                 && out[i] == Collapse(Members(rows, KeyOf(r))))
      && (forall i :: 0 <= i < |out| ==> !Dropped(KeyOf(out[i].first)))
  {
    var out := AggregateAttributes(rows).value;
    var ks := GroupKeys(rows);
    GroupKeysExact(rows);
    forall i | 0 <= i < |out| ensures KeyOf(out[i].first) == ks[i] {
      var k := ks[i];
      var ms := Members(rows, k);
      MembersNonEmpty(rows, k);
      CollapseExact(ms);
      WhereExact(rows, (r: Record) => KeyOf(r) == k);
      assert ms[0] in ms;
    }
    forall r | r in rows && !Dropped(KeyOf(r))
      ensures && |Members(rows, KeyOf(r))| > 0
              && exists i :: 0 <= i < |out| && KeyOf(out[i].first) == KeyOf(r) && out[i] == Collapse(Members(rows, KeyOf(r)))
    {
      var j :| 0 <= j < |rows| && rows[j] == r;
      assert KeyOf(rows[j]) == KeyOf(r);
      assert Carries(rows, KeyOf(r));
      MembersNonEmpty(rows, KeyOf(r));
      var i :| 0 <= i < |ks| && ks[i] == KeyOf(r);
      assert KeyOf(out[i].first) == KeyOf(r);
    }
  }
}

/**
 * The Consensus and Benchmark use cases: aggregate the export with the
 * default options, filter the frame, collapse each instance's attribute
 * rows, score every image and concatenate the images' rows. Python's set
 * iteration order over the image names is an arbitrary choice here, so the
 * methods also yield (as ghost) the order they took.
 */
module UseCases {
  import opened Values
  import opened Table
  import opened Frames
  import opened Matching
  import opened Matcher
  import opened Aggregation
  import opened Aggregator
  import opened Geometry

  /** `aggregate_image_annotations_as_df(export_dir)`: no back-fill, no comment or tag rows. */
  const DEFAULT_OPTIONS: Options := Options(false, false, false)

  // ----- selecting rows of the output -----

  /** The elements of `s` that `keep` accepts, in order. */
  function Select<T>(s: seq<T>, keep: T -> bool): (r: seq<T>)
    ensures |r| <= |s|
  {
    if s == [] then []
    else Select(s[..|s| - 1], keep) + (if keep(s[|s| - 1]) then [s[|s| - 1]] else [])
  }

  lemma {:induction false} SelectConcat<T>(a: seq<T>, b: seq<T>, keep: T -> bool)
    ensures Select(a + b, keep) == Select(a, keep) + Select(b, keep)
    decreases |b|
  {
    if b == [] {
      assert a + b == a;
    } else {
      var front, last := b[..|b| - 1], b[|b| - 1];
      var tail := if keep(last) then [last] else [];
      SelectConcat(a, front, keep);
      assert (a + b)[..|a + b| - 1] == a + front;
      assert (a + b)[|a + b| - 1] == last;
      calc {
        Select(a + b, keep);
        Select(a + front, keep) + tail;
        (Select(a, keep) + Select(front, keep)) + tail;
        Select(a, keep) + (Select(front, keep) + tail);
      }
    }
  }

  /** A mask that accepts every element keeps them all; one that accepts none keeps nothing. */
  lemma {:induction false} SelectAll<T>(s: seq<T>, keep: T -> bool)
    ensures (forall i :: 0 <= i < |s| ==> keep(s[i])) ==> Select(s, keep) == s
    ensures (forall i :: 0 <= i < |s| ==> !keep(s[i])) ==> Select(s, keep) == []
  {
    if s != [] {
      SelectAll(s[..|s| - 1], keep);
    }
  }

  /** Only elements `keep` accepts are kept. */
  lemma {:induction false} SelectSound<T>(s: seq<T>, keep: T -> bool)
    ensures forall i :: 0 <= i < |Select(s, keep)| ==> keep(Select(s, keep)[i])
  {
    if s != [] {
      SelectSound(s[..|s| - 1], keep);
    }
  }

  /** Two masks applied one after the other commute. */
  lemma {:induction false} SelectCommute<T>(s: seq<T>, p: T -> bool, q: T -> bool)
    ensures Select(Select(s, p), q) == Select(Select(s, q), p)
  {
    if s != [] {
      var front, last := s[..|s| - 1], s[|s| - 1];
      SelectCommute(front, p, q);
      var pl := if p(last) then [last] else [];
      var ql := if q(last) then [last] else [];
      SelectConcat(Select(front, p), pl, q);
      SelectConcat(Select(front, q), ql, p);
    }
  }

  /** The rows whose `labelOf` is `v`. */
  function OfLabel(rs: seq<ConsensusRecord>, labelOf: ConsensusRecord -> Value, v: Value): seq<ConsensusRecord> {
    Select(rs, (q: ConsensusRecord) => labelOf(q) == v)
  }

  lemma OfLabelSound(rs: seq<ConsensusRecord>, labelOf: ConsensusRecord -> Value, v: Value)
    ensures forall i :: 0 <= i < |OfLabel(rs, labelOf, v)| ==> labelOf(OfLabel(rs, labelOf, v)[i]) == v
  {
    SelectSound(rs, (q: ConsensusRecord) => labelOf(q) == v);
  }

  /** Selecting by two labels in either order gives the same rows. */
  lemma OfLabelCommute(rs: seq<ConsensusRecord>, l1: ConsensusRecord -> Value, v1: Value,
                       l2: ConsensusRecord -> Value, v2: Value)
    ensures OfLabel(OfLabel(rs, l1, v1), l2, v2) == OfLabel(OfLabel(rs, l2, v2), l1, v1)
  {
    SelectCommute(rs, (q: ConsensusRecord) => l1(q) == v1, (q: ConsensusRecord) => l2(q) == v2);
  }

  function ImageOf(q: ConsensusRecord): Value { q.imageName }
  function FolderOf(q: ConsensusRecord): Value { q.folderName }

  /** The rows of image `image`. */
  function OfImage(rs: seq<ConsensusRecord>, image: Value): seq<ConsensusRecord> {
    OfLabel(rs, ImageOf, image)
  }

  /** `df[df["folderName"] == folder]` on the output rows. */
  function OfFolder(rs: seq<ConsensusRecord>, folder: string): seq<ConsensusRecord> {
    OfLabel(rs, FolderOf, Str(folder))
  }

  // ----- every row of an image names that image -----

  lemma {:induction false} MemberRecordsImage(geo: Oracle, folders: seq<Folder>, image: Value, projects: nat,
                                              g: seq<Member>, id: nat, n: nat)
    requires n <= |g| && forall k :: 0 <= k < |g| ==> InRange(folders, g[k])
    requires MemberRecords(geo, folders, image, projects, g, id, n).Success?
    ensures forall i :: 0 <= i < |MemberRecords(geo, folders, image, projects, g, id, n).value| ==>
      MemberRecords(geo, folders, image, projects, g, id, n).value[i].imageName == image
    decreases n
  {
    if n > 0 {
      MemberRecordsImage(geo, folders, image, projects, g, id, n - 1);
    }
  }

  lemma {:induction false} EmitImage(geo: Oracle, folders: seq<Folder>, image: Value, projects: nat, gs: seq<Match>, n: nat)
    requires n <= |gs| && GroupsInRange(folders, gs)
    requires Emit(geo, folders, image, projects, gs, n).Success?
    ensures forall i :: 0 <= i < |Emit(geo, folders, image, projects, gs, n).value| ==>
      Emit(geo, folders, image, projects, gs, n).value[i].imageName == image
    decreases n
  {
    if n > 0 {
      var g := gs[n - 1].members;
      if |g| != 1 {
        MemberRecordsImage(geo, folders, image, projects, g, n - 1, |g|);
      }
      EmitImage(geo, folders, image, projects, gs, n - 1);
    }
  }

  /** Every row `image_consensus` gives for an image carries that image's name. */
  lemma ImageConsensusImage(geo: Oracle, annotType: string, df: seq<InstanceRow>, image: Value)
    requires ImageConsensus(geo, annotType, df, image).Success?
    ensures forall i :: 0 <= i < |ImageConsensus(geo, annotType, df, image).value| ==>
      ImageConsensus(geo, annotType, df, image).value[i].imageName == image
  {
    var folders := Collect(geo, annotType, image, df).value;
    var gs := Matches(geo, annotType, folders).value.groups;
    MatchesInRange(geo, annotType, folders);
    EmitImage(geo, folders, image, |FolderNames(df)|, gs, |gs|);
  }

  // ----- the loop over the images -----

  /** `set(df["imageName"])`. */
  function ImagesOf(rows: seq<InstanceRow>): set<Value> {
    set r | r in rows :: r.first.imageName
  }

  /** `order` lists every element of `s` once. */
  ghost predicate Enumerates(order: seq<Value>, s: set<Value>) {
    && (forall x :: x in order <==> x in s)
    && forall i, j :: 0 <= i < j < |order| ==> order[i] != order[j]
  }

  /** What each image gives: its scored rows or the error that stops the run. */
  type Scoring = Value -> Result<seq<ConsensusRecord>>

  /** `image_consensus` of the frame, image by image. */
  function ImageScores(geo: Oracle, annotType: string, rows: seq<InstanceRow>): Scoring {
    image => ImageConsensus(geo, annotType, rows, image)
  }

  /** Every row a key gives carries that key's `name` as its `labelOf`. */
  ghost predicate Labelled<K(!new)>(score: K -> Result<seq<ConsensusRecord>>, name: K -> Value, labelOf: ConsensusRecord -> Value) {
    forall x :: score(x).Success? ==>
      forall i :: 0 <= i < |score(x).value| ==> labelOf(score(x).value[i]) == name(x)
  }

  /** An image is named by itself. */
  function ImageKey(v: Value): Value { v }

  lemma ScoresLabelled(geo: Oracle, annotType: string, rows: seq<InstanceRow>)
    ensures Labelled(ImageScores(geo, annotType, rows), ImageKey, ImageOf)
  {
    forall x | ImageScores(geo, annotType, rows)(x).Success?
      ensures forall i :: 0 <= i < |ImageScores(geo, annotType, rows)(x).value| ==>
        ImageOf(ImageScores(geo, annotType, rows)(x).value[i]) == ImageKey(x)
    {
      ImageConsensusImage(geo, annotType, rows, x);
    }
  }

  /** The keys' rows one key after the other; the first key that fails stops the run. */
  function Concat<K>(score: K -> Result<seq<ConsensusRecord>>, order: seq<K>): (r: Result<seq<ConsensusRecord>>)
    decreases |order|
  {
    if order == [] then Success([])
    else
      var before :- Concat(score, order[..|order| - 1]);
      var own :- score(order[|order| - 1]);
      Success(before + own)
  }

  /** `pd.concat` of the images' frames; a frame without images has nothing to concatenate. */
  function ConcatAll(geo: Oracle, annotType: string, rows: seq<InstanceRow>, order: seq<Value>)
    : (r: Result<seq<ConsensusRecord>>)
  {
    if order == [] then Failure(NothingToConcatenate) else Concat(ImageScores(geo, annotType, rows), order)
  }

  /** The keys' rows concatenated exist iff every key gives its rows. */
  lemma {:induction false} ConcatSucceeds<K>(score: K -> Result<seq<ConsensusRecord>>, order: seq<K>)
    ensures Concat(score, order).Success? <==> forall k :: 0 <= k < |order| ==> score(order[k]).Success?
    decreases |order|
  {
    if order != [] {
      var front := order[..|order| - 1];
      ConcatSucceeds(score, front);
      if Concat(score, order).Success? {
        forall k | 0 <= k < |front| ensures score(order[k]).Success? {
          assert order[k] == front[k];
        }
      } else if Concat(score, front).Failure? {
        var k :| 0 <= k < |front| && score(front[k]).Failure?;
        assert order[k] == front[k];
      }
    }
  }

  /** The last key's rows split off the concatenation, label by label. */
  lemma ConcatLast<K(!new)>(score: K -> Result<seq<ConsensusRecord>>, name: K -> Value, labelOf: ConsensusRecord -> Value,
                      order: seq<K>)
    requires Labelled(score, name, labelOf)
    requires order != [] && Concat(score, order).Success?
    ensures Concat(score, order[..|order| - 1]).Success? && score(order[|order| - 1]).Success?
    ensures forall v :: (OfLabel(Concat(score, order).value, labelOf, v)
      == OfLabel(Concat(score, order[..|order| - 1]).value, labelOf, v)
       + (if v == name(order[|order| - 1]) then score(order[|order| - 1]).value else []))
  {
    var before := Concat(score, order[..|order| - 1]).value;
    var last := order[|order| - 1];
    var own := score(last).value;
    forall v ensures OfLabel(before + own, labelOf, v) == OfLabel(before, labelOf, v) + OfLabel(own, labelOf, v) {
      SelectConcat(before, own, (q: ConsensusRecord) => labelOf(q) == v);
    }
    forall v ensures OfLabel(own, labelOf, v) == if v == name(last) then own else [] {
      SelectAll(own, (q: ConsensusRecord) => labelOf(q) == v);
    }
  }

  /**
   * Whatever order the keys are taken in, the rows labelled with a key's
   * name are the rows that key gives on its own, and no row carries a name
   * no key has.
   */
  lemma {:induction false} ConcatBlocks<K(!new)>(score: K -> Result<seq<ConsensusRecord>>, name: K -> Value,
                                                 labelOf: ConsensusRecord -> Value, order: seq<K>)
    requires Labelled(score, name, labelOf)
    requires forall i, j :: 0 <= i < j < |order| ==> name(order[i]) != name(order[j])
    requires Concat(score, order).Success?
    ensures forall k :: 0 <= k < |order| ==>
      score(order[k]).Success? && OfLabel(Concat(score, order).value, labelOf, name(order[k])) == score(order[k]).value
    ensures forall v :: (forall k :: 0 <= k < |order| ==> name(order[k]) != v) ==>
      OfLabel(Concat(score, order).value, labelOf, v) == []
    decreases |order|
  {
    if order != [] {
      var front := order[..|order| - 1];
      var last := order[|order| - 1];
      ConcatLast(score, name, labelOf, order);
      ConcatBlocks(score, name, labelOf, front);
      var all := Concat(score, order).value;
      forall k | 0 <= k < |order|
        ensures score(order[k]).Success? && OfLabel(all, labelOf, name(order[k])) == score(order[k]).value
      {
        if k < |front| {
          assert order[k] == front[k] && name(order[k]) != name(last);
        }
      }
      forall v | forall k :: 0 <= k < |order| ==> name(order[k]) != v ensures OfLabel(all, labelOf, v) == [] {
        assert name(order[|order| - 1]) != v;
        forall k | 0 <= k < |front| ensures name(front[k]) != v {
          assert front[k] == order[k];
        }
      }
    }
  }

  /**
   * The images' frames concatenated: it fails iff some image fails or there
   * is no image, and each image's block is exactly `image_consensus` of it.
   */
  lemma ConcatAllExact(geo: Oracle, annotType: string, rows: seq<InstanceRow>, order: seq<Value>)
    requires Enumerates(order, ImagesOf(rows))
    ensures ConcatAll(geo, annotType, rows, order).Success? <==>
      ImagesOf(rows) != {} && forall x :: x in ImagesOf(rows) ==> ImageConsensus(geo, annotType, rows, x).Success?
    ensures ConcatAll(geo, annotType, rows, order).Success? ==> forall x :: x in ImagesOf(rows) ==>
      OfImage(ConcatAll(geo, annotType, rows, order).value, x) == ImageConsensus(geo, annotType, rows, x).value
    ensures ConcatAll(geo, annotType, rows, order).Success? ==> forall x :: x !in ImagesOf(rows) ==>
      OfImage(ConcatAll(geo, annotType, rows, order).value, x) == []
  {
    var score := ImageScores(geo, annotType, rows);
    ScoresLabelled(geo, annotType, rows);
    ConcatSucceeds(score, order);
    if order == [] {
      assert forall x :: x !in ImagesOf(rows);
    } else {
      if forall x :: x in ImagesOf(rows) ==> ImageConsensus(geo, annotType, rows, x).Success? {
        forall k | 0 <= k < |order| ensures score(order[k]).Success? {
          assert order[k] in ImagesOf(rows);
        }
      }
      if Concat(score, order).Success? {
        ConcatBlocks(score, ImageKey, ImageOf, order);
        forall x | x in ImagesOf(rows)
          ensures && ImageConsensus(geo, annotType, rows, x).Success?
                  && OfImage(Concat(score, order).value, x) == ImageConsensus(geo, annotType, rows, x).value
        {
          var k :| 0 <= k < |order| && order[k] == x;
          assert ImageKey(order[k]) == x;
        }
        forall x | x !in ImagesOf(rows) ensures OfImage(Concat(score, order).value, x) == [] {
          assert forall k :: 0 <= k < |order| ==> ImageKey(order[k]) != x;
        }
      }
    }
  }

  /** A failed prefix of the images fails the whole. */
  lemma {:induction false} ConcatFailsLater<K>(score: K -> Result<seq<ConsensusRecord>>, order: seq<K>, more: seq<K>)
    requires Concat(score, order).Failure?
    ensures Concat(score, order + more) == Concat(score, order)
    decreases |more|
  {
    if more == [] {
      assert order + more == order;
    } else {
      ConcatFailsLater(score, order, more[..|more| - 1]);
      assert (order + more)[..|order + more| - 1] == order + more[..|more| - 1];
    }
  }

  /** Some listing of a finite set. */
  ghost function Listing(s: set<Value>): (q: seq<Value>)
    ensures Enumerates(q, s)
    decreases |s|
  {
    if s == {} then []
    else
      var x :| x in s;
      var rest := Listing(s - {x});
      assert forall i :: 0 <= i < |rest| ==> rest[i] != x;
      [x] + rest
  }

  /** The images taken so far followed by a listing of those left enumerate them all. */
  lemma EnumeratesJoin(order: seq<Value>, rest: seq<Value>, todo: set<Value>, all: set<Value>)
    requires todo <= all
    requires forall x :: x in order <==> x in all && x !in todo
    requires forall i, j :: 0 <= i < j < |order| ==> order[i] != order[j]
    requires Enumerates(rest, todo)
    ensures Enumerates(order + rest, all)
  {
    var q := order + rest;
    forall i, j | 0 <= i < j < |q| ensures q[i] != q[j] {
      if j >= |order| && i < |order| {
        assert q[i] in order && q[j] in rest;
      }
    }
  }

  /** After a failed image the run fails, with the images left listed in some order after it. */
  lemma FailedImages(score: Scoring, done: seq<Value>, todo: set<Value>, all: set<Value>)
    returns (order: seq<Value>)
    requires todo <= all
    requires forall x :: x in done <==> x in all && x !in todo
    requires forall i, j :: 0 <= i < j < |done| ==> done[i] != done[j]
    requires Concat(score, done).Failure?
    ensures Enumerates(order, all)
    ensures Concat(score, order) == Concat(score, done)
  {
    var rest := Listing(todo);
    ConcatFailsLater(score, done, rest);
    EnumeratesJoin(done, rest, todo, all);
    order := done + rest;
  }

  /** One more image: its rows follow the others', or its error ends the run. */
  lemma ConcatNext<K>(score: K -> Result<seq<ConsensusRecord>>, order: seq<K>, image: K, out: seq<ConsensusRecord>)
    requires Concat(score, order) == Success(out)
    ensures score(image).Failure? ==> Concat(score, order + [image]) == Failure(score(image).error)
    ensures score(image).Success? ==> Concat(score, order + [image]) == Success(out + score(image).value)
  {
    var next := order + [image];
    assert next[..|next| - 1] == order;
  }

  /** `image_consensus` of one image. */
  method ScoreImage(geo: Oracle, annotType: string, rows: seq<InstanceRow>, image: Value)
    returns (r: Result<seq<ConsensusRecord>>)
    ensures r == ImageScores(geo, annotType, rows)(image)
  {
    r := ImageConsensusLoop(geo, annotType, rows, image);
  }

  /**
   * `for image_name in set(df["imageName"])`: `image_consensus` of each
   * image, the frames concatenated in the order the images were taken.
   */
  method ImageRows(geo: Oracle, annotType: string, rows: seq<InstanceRow>)
    returns (r: Result<seq<ConsensusRecord>>, ghost order: seq<Value>)
    ensures Enumerates(order, ImagesOf(rows))
    ensures r == ConcatAll(geo, annotType, rows, order)
  {
    ghost var score := ImageScores(geo, annotType, rows);
    var todo := ImagesOf(rows);
    order := [];
    if todo == {} {
      return Failure(NothingToConcatenate), order;
    }
    ghost var some :| some in todo;
    var out: seq<ConsensusRecord> := [];
    while todo != {}
      invariant todo <= ImagesOf(rows)
      invariant forall x :: x in order <==> x in ImagesOf(rows) && x !in todo
      invariant forall i, j :: 0 <= i < j < |order| ==> order[i] != order[j]
      invariant Concat(score, order) == Success(out)
      decreases |todo|
    {
      var image :| image in todo;
      var data := ScoreImage(geo, annotType, rows, image);
      ConcatNext(score, order, image, out);
      ghost var next := order + [image];
      if data.Failure? {
        order := FailedImages(score, next, todo - {image}, ImagesOf(rows));
        return Failure(data.error), order;
      }
      out := out + data.value;
      order := next;
      todo := todo - {image};
    }
    assert some in order;
    return Success(out), order;
  }

  // ----- the export as a frame -----

  /** `aggregate_image_annotations_as_df(export_dir)` as rows over its columns. */
  function ExportFrame(root: ExportRoot): (r: Result<seq<Record>>)
    ensures r.Failure? <==> Aggregate(root, DEFAULT_OPTIONS).Failure?
    ensures r.Success? ==> |r.value| == |Aggregate(root, DEFAULT_OPTIONS).value|
  {
    var records :- Aggregate(root, DEFAULT_OPTIONS);
    Success(FrameOf(records, Columns(false, false)))
  }

  /** The frame the default aggregation builds, read back row by row. */
  method ExportData(root: ExportRoot) returns (r: Result<seq<Record>>)
    ensures r == ExportFrame(root)
  {
    var aggregated := AggregateImageAnnotations(root, DEFAULT_OPTIONS);
    if aggregated.Failure? {
      return Failure(aggregated.error);
    }
    var table := aggregated.value;
    ColumnsCover(false, false);
    assert BASE_COLUMNS[0] == ImageName;
    var rows := table.Frame();
    return Success(rows);
  }

  // ----- ConsensusUseCase.execute -----

  /** The instances the Consensus pipeline scores: filtered, then collapsed. */
  function ConsensusInstances(df: seq<Record>, folderNames: seq<string>, imageList: Option<seq<string>>,
                              annotType: string): Result<seq<InstanceRow>>
  {
    AggregateAttributes(ConsensusRows(df, folderNames, imageList, annotType))
  }

  /**
   * `ConsensusUseCase.execute` with its images taken in `order`: the
   * aggregation's error, the collapse's error, or the concatenated scores.
   */
  function ConsensusResult(geo: Oracle, root: ExportRoot, folderNames: seq<string>, imageList: Option<seq<string>>,
                           annotType: string, order: seq<Value>): Result<seq<ConsensusRecord>>
  {
    var df :- ExportFrame(root);
    var rows :- ConsensusInstances(df, folderNames, imageList, annotType);
    ConcatAll(geo, annotType, rows, order)
  }

  /** `order` lists the images the Consensus pipeline reaches, each once. */
  ghost predicate ConsensusOrder(root: ExportRoot, folderNames: seq<string>, imageList: Option<seq<string>>,
                                 annotType: string, order: seq<Value>)
  {
    ExportFrame(root).Success? && ConsensusInstances(ExportFrame(root).value, folderNames, imageList, annotType).Success?
    ==> Enumerates(order, ImagesOf(ConsensusInstances(ExportFrame(root).value, folderNames, imageList, annotType).value))
  }

  method ConsensusExecute(geo: Oracle, root: ExportRoot, folderNames: seq<string>, imageList: Option<seq<string>>,
                          annotType: string)
    returns (r: Result<seq<ConsensusRecord>>, ghost order: seq<Value>)
    ensures ConsensusOrder(root, folderNames, imageList, annotType, order)
    ensures r == ConsensusResult(geo, root, folderNames, imageList, annotType, order)
  {
    order := [];
    var df := ExportData(root);
    if df.Failure? {
      return Failure(df.error), order;
    }
    var rows := AggregateAttributes(ConsensusRows(df.value, folderNames, imageList, annotType));
    if rows.Failure? {
      return Failure(rows.error), order;
    }
    r, order := ImageRows(geo, annotType, rows.value);
  }

  /**
   * What Consensus returns: each image of the kept instances gives exactly
   * the rows `image_consensus` gives it over those instances, where an
   * instance is kept when it has an id, belongs to a requested folder, to a
   * listed image when a list is given, and has the requested type; the run
   * fails iff the export, the collapse or one image fails, or nothing is kept.
   */
  lemma ConsensusExact(geo: Oracle, root: ExportRoot, folderNames: seq<string>, imageList: Option<seq<string>>,
                       annotType: string, order: seq<Value>)
    requires ConsensusOrder(root, folderNames, imageList, annotType, order)
    requires ExportFrame(root).Success?
    ensures var rows := AggregateAttributes(Where(ExportFrame(root).value,
                                                  (q: Record) => ConsensusKeeps(q, folderNames, imageList, annotType)));
      var r := ConsensusResult(geo, root, folderNames, imageList, annotType, order);
      && (r.Success? <==> rows.Success? && ImagesOf(rows.value) != {}
                          && forall x :: x in ImagesOf(rows.value) ==> ImageConsensus(geo, annotType, rows.value, x).Success?)
      && (r.Success? ==> forall x :: x in ImagesOf(rows.value) ==>
            OfImage(r.value, x) == ImageConsensus(geo, annotType, rows.value, x).value)
  {
    var df := ExportFrame(root).value;
    ConsensusRowsExact(df, folderNames, imageList, annotType);
    var rows := ConsensusInstances(df, folderNames, imageList, annotType);
    if rows.Success? {
      ConcatAllExact(geo, annotType, rows.value, order);
    }
  }

  // ----- BenchmarkUseCase.execute -----

  /** One folder's run: the folder's images in `order`, each image's rows scored against the ground truth. */
  datatype Job = Job(folder: string, order: seq<Value>)

  /** The instances one folder's Benchmark run scores. */
  function BenchmarkInstances(df: seq<Record>, groundTruth: string, folder: string, imageList: Option<seq<string>>,
                              annotType: string): Result<seq<InstanceRow>>
  {
    AggregateAttributes(BenchmarkRows(df, groundTruth, folder, imageList, annotType))
  }

  /** One folder's block: the scores of its images, of its own rows only. */
  function BenchmarkFolder(geo: Oracle, df: seq<Record>, groundTruth: string, imageList: Option<seq<string>>,
                           annotType: string, job: Job): Result<seq<ConsensusRecord>>
  {
    var rows :- BenchmarkInstances(df, groundTruth, job.folder, imageList, annotType);
    var all :- ConcatAll(geo, annotType, rows, job.order);
    Success(OfFolder(all, job.folder))
  }

  function FolderBlocks(geo: Oracle, df: seq<Record>, groundTruth: string, imageList: Option<seq<string>>,
                        annotType: string): Job -> Result<seq<ConsensusRecord>>
  {
    job => BenchmarkFolder(geo, df, groundTruth, imageList, annotType, job)
  }

  function JobName(job: Job): Value { Str(job.folder) }

  /** The folders with the orders their images were taken in. */
  function Jobs(folderNames: seq<string>, orders: seq<seq<Value>>): (jobs: seq<Job>)
    requires |orders| == |folderNames|
    ensures |jobs| == |folderNames|
    ensures forall f :: 0 <= f < |jobs| ==> jobs[f] == Job(folderNames[f], orders[f])
  {
    seq(|folderNames|, f requires 0 <= f < |folderNames| => Job(folderNames[f], orders[f]))
  }

  /**
   * `BenchmarkUseCase.execute` with each folder's images taken in the
   * order given for it: the aggregation's error, or the folders' blocks one
   * after the other, or nothing to concatenate when no folder is given.
   */
  function BenchmarkResult(geo: Oracle, root: ExportRoot, groundTruth: string, folderNames: seq<string>,
                           imageList: Option<seq<string>>, annotType: string, orders: seq<seq<Value>>)
    : Result<seq<ConsensusRecord>>
    requires |orders| == |folderNames|
  {
    var df :- ExportFrame(root);
    if folderNames == [] then Failure(NothingToConcatenate)
    else Concat(FolderBlocks(geo, df, groundTruth, imageList, annotType), Jobs(folderNames, orders))
  }

  /** `order` lists the images of the folder's run, when its instances collapse, each once. */
  ghost predicate FolderOrder(df: seq<Record>, groundTruth: string, imageList: Option<seq<string>>, annotType: string,
                              job: Job)
  {
    BenchmarkInstances(df, groundTruth, job.folder, imageList, annotType).Success? ==>
      Enumerates(job.order, ImagesOf(BenchmarkInstances(df, groundTruth, job.folder, imageList, annotType).value))
  }

  /** An order a folder's run could have taken. */
  ghost function SomeOrder(df: seq<Record>, groundTruth: string, imageList: Option<seq<string>>, annotType: string,
                           folder: string): (order: seq<Value>)
    ensures FolderOrder(df, groundTruth, imageList, annotType, Job(folder, order))
  {
    var rows := BenchmarkInstances(df, groundTruth, folder, imageList, annotType);
    if rows.Success? then Listing(ImagesOf(rows.value)) else []
  }

  /** `blocks` is `BenchmarkFolder` of this frame. */
  ghost predicate BlocksOf(geo: Oracle, df: seq<Record>, groundTruth: string, imageList: Option<seq<string>>,
                           annotType: string, blocks: Job -> Result<seq<ConsensusRecord>>)
  {
    forall j {:trigger BenchmarkFolder(geo, df, groundTruth, imageList, annotType, j)} ::
      blocks(j) == BenchmarkFolder(geo, df, groundTruth, imageList, annotType, j)
  }

  /** `ok` is `FolderOrder` of this frame. */
  ghost predicate OrdersOf(df: seq<Record>, groundTruth: string, imageList: Option<seq<string>>, annotType: string,
                           ok: Job -> bool)
  {
    forall j {:trigger FolderOrder(df, groundTruth, imageList, annotType, j)} ::
      ok(j) == FolderOrder(df, groundTruth, imageList, annotType, j)
  }

  /** One folder of the Benchmark loop. */
  method BenchmarkFolderRun(geo: Oracle, df: seq<Record>, groundTruth: string, imageList: Option<seq<string>>,
                            annotType: string, folder: string,
                            ghost blocks: Job -> Result<seq<ConsensusRecord>>, ghost ok: Job -> bool)
    returns (r: Result<seq<ConsensusRecord>>, ghost order: seq<Value>)
    requires BlocksOf(geo, df, groundTruth, imageList, annotType, blocks)
    requires OrdersOf(df, groundTruth, imageList, annotType, ok)
    ensures ok(Job(folder, order))
    ensures r == blocks(Job(folder, order))
  {
    order := [];
    var rows := AggregateAttributes(BenchmarkRows(df, groundTruth, folder, imageList, annotType));
    if rows.Failure? {
      assert BenchmarkFolder(geo, df, groundTruth, imageList, annotType, Job(folder, order)) == Failure(rows.error);
      assert FolderOrder(df, groundTruth, imageList, annotType, Job(folder, order));
      return Failure(rows.error), order;
    }
    var all;
    all, order := ImageRows(geo, annotType, rows.value);
    assert FolderOrder(df, groundTruth, imageList, annotType, Job(folder, order));
    if all.Failure? {
      assert BenchmarkFolder(geo, df, groundTruth, imageList, annotType, Job(folder, order)) == Failure(all.error);
      return Failure(all.error), order;
    }
    assert BenchmarkFolder(geo, df, groundTruth, imageList, annotType, Job(folder, order))
        == Success(OfFolder(all.value, folder));
    return Success(OfFolder(all.value, folder)), order;
  }

  /** Every folder name has an order its run could take. */
  lemma SomeOrders(df: seq<Record>, groundTruth: string, imageList: Option<seq<string>>, annotType: string,
                   ok: Job -> bool) returns (pick: string -> seq<Value>)
    requires OrdersOf(df, groundTruth, imageList, annotType, ok)
    ensures forall n :: ok(Job(n, pick(n)))
  {
    pick := (n: string) => SomeOrder(df, groundTruth, imageList, annotType, n);
    forall n ensures ok(Job(n, pick(n))) {
      assert FolderOrder(df, groundTruth, imageList, annotType, Job(n, SomeOrder(df, groundTruth, imageList, annotType, n)));
    }
  }

  method BenchmarkExecute(geo: Oracle, root: ExportRoot, groundTruth: string, folderNames: seq<string>,
                          imageList: Option<seq<string>>, annotType: string)
    returns (r: Result<seq<ConsensusRecord>>, ghost orders: seq<seq<Value>>)
    ensures |orders| == |folderNames|
    ensures ExportFrame(root).Success? ==> forall f :: 0 <= f < |folderNames| ==>
      FolderOrder(ExportFrame(root).value, groundTruth, imageList, annotType, Job(folderNames[f], orders[f]))
    ensures r == BenchmarkResult(geo, root, groundTruth, folderNames, imageList, annotType, orders)
  {
    orders := seq(|folderNames|, f => []);
    var frame := ExportData(root);
    if frame.Failure? {
      return Failure(frame.error), orders;
    }
    var out;
    var df := frame.value;
    out, orders := BenchmarkFolders(geo, df, groundTruth, folderNames, imageList, annotType,
                                    FolderBlocks(geo, df, groundTruth, imageList, annotType),
                                    (j: Job) => FolderOrder(df, groundTruth, imageList, annotType, j));
    if out.Success? && |folderNames| == 0 {
      return Failure(NothingToConcatenate), orders;
    }
    return out, orders;
  }

  /**
   * `for folder_name in self._folder_names`: each folder's block, appended
   * in the folders' order. `blocks` and `ok` stand for `BenchmarkFolder`
   * and `FolderOrder` of this frame.
   */
  method BenchmarkFolders(geo: Oracle, df: seq<Record>, groundTruth: string, folderNames: seq<string>,
                          imageList: Option<seq<string>>, annotType: string,
                          ghost blocks: Job -> Result<seq<ConsensusRecord>>, ghost ok: Job -> bool)
    returns (r: Result<seq<ConsensusRecord>>, ghost orders: seq<seq<Value>>)
    requires BlocksOf(geo, df, groundTruth, imageList, annotType, blocks)
    requires OrdersOf(df, groundTruth, imageList, annotType, ok)
    ensures |orders| == |folderNames|
    ensures forall f :: 0 <= f < |folderNames| ==> ok(Job(folderNames[f], orders[f]))
    ensures r == Concat(blocks, Jobs(folderNames, orders))
  {
    orders := [];
    var out: seq<ConsensusRecord> := [];
    for f := 0 to |folderNames|
      invariant |orders| == f
      invariant forall g :: 0 <= g < f ==> ok(Job(folderNames[g], orders[g]))
      invariant Concat(blocks, Jobs(folderNames[..f], orders)) == Success(out)
    {
      var block, order := BenchmarkFolderRun(geo, df, groundTruth, imageList, annotType, folderNames[f], blocks, ok);
      JobsNext(folderNames, orders, f, order);
      ConcatNext(blocks, Jobs(folderNames[..f], orders), Job(folderNames[f], order), out);
      if block.Failure? {
        orders := FailedRun(df, groundTruth, imageList, annotType, blocks, ok, folderNames, orders + [order]);
        return Failure(block.error), orders;
      }
      out := out + block.value;
      orders := orders + [order];
    }
    assert folderNames[..|folderNames|] == folderNames;
    return Success(out), orders;
  }

  /** After a failed folder the run fails, with orders for the folders left that keep `ok`. */
  lemma FailedRun(df: seq<Record>, groundTruth: string, imageList: Option<seq<string>>, annotType: string,
                  blocks: Job -> Result<seq<ConsensusRecord>>, ok: Job -> bool,
                  folderNames: seq<string>, done: seq<seq<Value>>)
    returns (orders: seq<seq<Value>>)
    requires OrdersOf(df, groundTruth, imageList, annotType, ok)
    requires |done| <= |folderNames|
    requires forall g :: 0 <= g < |done| ==> ok(Job(folderNames[g], done[g]))
    requires Concat(blocks, Jobs(folderNames[..|done|], done)).Failure?
    ensures |orders| == |folderNames|
    ensures forall f :: 0 <= f < |folderNames| ==> ok(Job(folderNames[f], orders[f]))
    ensures Concat(blocks, Jobs(folderNames, orders)) == Concat(blocks, Jobs(folderNames[..|done|], done))
  {
    var pick := SomeOrders(df, groundTruth, imageList, annotType, ok);
    orders := FailedFolders(blocks, ok, pick, folderNames, done);
  }

  /**
   * After a failed folder the run fails whatever orders the folders left
   * would have taken; `pick` supplies orders that keep `ok`.
   */
  lemma FailedFolders(blocks: Job -> Result<seq<ConsensusRecord>>, ok: Job -> bool, pick: string -> seq<Value>,
                      folderNames: seq<string>, done: seq<seq<Value>>)
    returns (orders: seq<seq<Value>>)
    requires |done| <= |folderNames|
    requires forall g :: 0 <= g < |done| ==> ok(Job(folderNames[g], done[g]))
    requires forall n :: ok(Job(n, pick(n)))
    requires Concat(blocks, Jobs(folderNames[..|done|], done)).Failure?
    ensures |orders| == |folderNames| && orders[..|done|] == done
    ensures forall f :: 0 <= f < |folderNames| ==> ok(Job(folderNames[f], orders[f]))
    ensures Concat(blocks, Jobs(folderNames, orders)) == Concat(blocks, Jobs(folderNames[..|done|], done))
  {
    var f := |done|;
    var rest := Picked(folderNames[f..], pick);
    orders := done + rest;
    forall g | 0 <= g < |folderNames| ensures ok(Job(folderNames[g], orders[g])) {
      if g >= f {
        assert orders[g] == rest[g - f] == pick(folderNames[g]);
      }
    }
    JobsSplit(folderNames, done, rest, f);
    ConcatFailsLater(blocks, Jobs(folderNames[..f], done), Jobs(folderNames[f..], rest));
    assert orders[..f] == done;
  }

  /** The order `pick` gives each of the folders. */
  ghost function Picked(folderNames: seq<string>, pick: string -> seq<Value>): (orders: seq<seq<Value>>)
    ensures |orders| == |folderNames|
    ensures forall g :: 0 <= g < |folderNames| ==> orders[g] == pick(folderNames[g])
  {
    seq(|folderNames|, g requires 0 <= g < |folderNames| => pick(folderNames[g]))
  }

  /** The jobs of one more folder. */
  lemma JobsNext(folderNames: seq<string>, orders: seq<seq<Value>>, f: nat, order: seq<Value>)
    requires f < |folderNames| && |orders| == f
    ensures Jobs(folderNames[..f + 1], orders + [order]) == Jobs(folderNames[..f], orders) + [Job(folderNames[f], order)]
  {
  }

  /** The jobs of the folders done and of those left. */
  lemma JobsSplit(folderNames: seq<string>, done: seq<seq<Value>>, rest: seq<seq<Value>>, f: nat)
    requires f <= |folderNames| && |done| == f && |rest| == |folderNames| - f
    ensures Jobs(folderNames, done + rest) == Jobs(folderNames[..f], done) + Jobs(folderNames[f..], rest)
  {
  }

  // ----- what Benchmark returns -----

  /** A folder's block holds only rows of that folder. */
  lemma BenchmarkFolderOwn(geo: Oracle, df: seq<Record>, groundTruth: string, imageList: Option<seq<string>>,
                           annotType: string, job: Job)
    requires BenchmarkFolder(geo, df, groundTruth, imageList, annotType, job).Success?
    ensures var rs := BenchmarkFolder(geo, df, groundTruth, imageList, annotType, job).value;
      forall i :: 0 <= i < |rs| ==> rs[i].folderName == Str(job.folder)
  {
    var rows := BenchmarkInstances(df, groundTruth, job.folder, imageList, annotType).value;
    var all := ConcatAll(geo, annotType, rows, job.order).value;
    OfLabelSound(all, FolderOf, Str(job.folder));
  }

  lemma BlocksLabelled(geo: Oracle, df: seq<Record>, groundTruth: string, imageList: Option<seq<string>>,
                       annotType: string)
    ensures Labelled(FolderBlocks(geo, df, groundTruth, imageList, annotType), JobName, FolderOf)
  {
    var blocks := FolderBlocks(geo, df, groundTruth, imageList, annotType);
    forall j | blocks(j).Success?
      ensures forall i :: 0 <= i < |blocks(j).value| ==> FolderOf(blocks(j).value[i]) == JobName(j)
    {
      BenchmarkFolderOwn(geo, df, groundTruth, imageList, annotType, j);
    }
  }

  /**
   * What Benchmark returns, for distinct folder names: it fails iff the
   * export fails, no folder is given or some folder's run fails, and the
   * rows of each folder are exactly that folder's block.
   */
  lemma BenchmarkExact(geo: Oracle, root: ExportRoot, groundTruth: string, folderNames: seq<string>,
                       imageList: Option<seq<string>>, annotType: string, orders: seq<seq<Value>>)
    requires |orders| == |folderNames|
    requires forall i, j :: 0 <= i < j < |folderNames| ==> folderNames[i] != folderNames[j]
    requires ExportFrame(root).Success?
    ensures var df := ExportFrame(root).value;
      var r := BenchmarkResult(geo, root, groundTruth, folderNames, imageList, annotType, orders);
      && (r.Success? <==> folderNames != [] && forall f :: 0 <= f < |folderNames| ==>
            BenchmarkFolder(geo, df, groundTruth, imageList, annotType, Job(folderNames[f], orders[f])).Success?)
      && (r.Success? ==> forall f :: 0 <= f < |folderNames| ==>
            OfFolder(r.value, folderNames[f])
              == BenchmarkFolder(geo, df, groundTruth, imageList, annotType, Job(folderNames[f], orders[f])).value)
  {
    var df := ExportFrame(root).value;
    var blocks := FolderBlocks(geo, df, groundTruth, imageList, annotType);
    var jobs := Jobs(folderNames, orders);
    assert BenchmarkResult(geo, root, groundTruth, folderNames, imageList, annotType, orders)
      == if folderNames == [] then Failure(NothingToConcatenate) else Concat(blocks, jobs);
    forall f | 0 <= f < |folderNames|
      ensures blocks(jobs[f]) == BenchmarkFolder(geo, df, groundTruth, imageList, annotType, Job(folderNames[f], orders[f]))
    {
    }
    ConcatSucceeds(blocks, jobs);
    if folderNames != [] && Concat(blocks, jobs).Success? {
      BlocksLabelled(geo, df, groundTruth, imageList, annotType);
      ConcatBlocks(blocks, JobName, FolderOf, jobs);
    }
  }

  /**
   * Within a folder's block, the rows of an image are that folder's rows of
   * `image_consensus` over the folder's and the ground truth's instances.
   */
  lemma BenchmarkFolderImages(geo: Oracle, df: seq<Record>, groundTruth: string, imageList: Option<seq<string>>,
                              annotType: string, job: Job, x: Value)
    requires FolderOrder(df, groundTruth, imageList, annotType, job)
    requires BenchmarkFolder(geo, df, groundTruth, imageList, annotType, job).Success?
    requires BenchmarkInstances(df, groundTruth, job.folder, imageList, annotType).Success?
    requires x in ImagesOf(BenchmarkInstances(df, groundTruth, job.folder, imageList, annotType).value)
    ensures var rows := BenchmarkInstances(df, groundTruth, job.folder, imageList, annotType).value;
      && ImageConsensus(geo, annotType, rows, x).Success?
      && OfImage(BenchmarkFolder(geo, df, groundTruth, imageList, annotType, job).value, x)
           == OfFolder(ImageConsensus(geo, annotType, rows, x).value, job.folder)
  {
    var rows := BenchmarkInstances(df, groundTruth, job.folder, imageList, annotType).value;
    var all := ConcatAll(geo, annotType, rows, job.order).value;
    ConcatAllExact(geo, annotType, rows, job.order);
    OfLabelCommute(all, FolderOf, Str(job.folder), ImageOf, x);
  }
}

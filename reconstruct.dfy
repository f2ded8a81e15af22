/**
 * `df_to_annotations`: the aggregated frame turned back into one annotation
 * document per image and the classes list. Writing the files is left out;
 * the model returns what would be written.
 */
module Reconstruct {
  import opened Values
  import opened Strings
  import opened Table
  import opened Frames
  import Aggregation

  // ----- column values -----

  /** `column.dropna().unique()`: the non-None values, each once, in the order they first occur. */
  function Unique(vs: seq<Value>): (u: seq<Value>)
    decreases |vs|
  {
    if vs == [] then []
    else
      var u := Unique(vs[..|vs| - 1]);
      var x := vs[|vs| - 1];
      if x == Null || x in u then u else u + [x]
  }

  /** One more value is added to the distinct values unless it is None or already among them. */
  lemma UniqueSnoc(vs: seq<Value>, x: Value)
    ensures Unique(vs + [x]) == if x == Null || x in Unique(vs) then Unique(vs) else Unique(vs) + [x]
  {
    assert (vs + [x])[..|vs|] == vs;
  }

  /** Where `x` first occurs in `vs`. */
  function FirstAt(vs: seq<Value>, x: Value): (i: nat)
    requires x in vs
    ensures i < |vs| && vs[i] == x && x !in vs[..i]
    decreases |vs|
  {
    var front := vs[..|vs| - 1];
    if x in front then
      var i := FirstAt(front, x);
      assert vs[..i] == front[..i];
      i
    else
      assert vs[..|vs| - 1] == front;
      |vs| - 1
  }

  /** The unique values are the non-None values, each once, ordered by their first occurrence. */
  lemma {:induction false} UniqueExact(vs: seq<Value>)
    ensures forall x :: x in Unique(vs) <==> x in vs && x != Null
    ensures forall i, j :: 0 <= i < j < |Unique(vs)| ==> Unique(vs)[i] != Unique(vs)[j]
    ensures forall i, j :: 0 <= i < j < |Unique(vs)| ==> FirstAt(vs, Unique(vs)[i]) < FirstAt(vs, Unique(vs)[j])
    decreases |vs|
  {
    if vs != [] {
      var front := vs[..|vs| - 1];
      var x := vs[|vs| - 1];
      UniqueExact(front);
      assert vs == front + [x];
      var u := Unique(front);
      forall y | y in u ensures FirstAt(vs, y) == FirstAt(front, y) {
        var i := FirstAt(front, y);
        assert vs[..i] == front[..i];
        FirstAtUnique(vs, y, i);
      }
      if x != Null && x !in u {
        assert x !in front;
        assert FirstAt(vs, x) == |vs| - 1;
      }
    }
  }

  /** An index holding `x` with no `x` before it is the first occurrence. */
  lemma FirstAtUnique(vs: seq<Value>, x: Value, i: nat)
    requires i < |vs| && vs[i] == x && x !in vs[..i]
    ensures FirstAt(vs, x) == i
  {
  }

  // ----- one instance -----

  /**
   * Python's `int(v)`: booleans count as integers, numbers are truncated
   * toward zero and strings are read as decimal integers; anything else raises.
   */
  function ToInt(v: Value): (r: Result<int>)
    ensures r.Failure? <==> !(v.Int? || v.Bool? || v.Num? || (v.Str? && ParseInt(v.s).Some?))
    ensures r.Failure? ==> r.error == Malformed
    ensures v.Int? ==> r == Success(v.i)
    ensures v.Bool? ==> r == Success(if v.b then 1 else 0)
    ensures v.Str? && r.Success? ==> r.value == ParseInt(v.s).value
  {
    match v
    case Int(i) => Success(i)
    case Bool(b) => Success(if b then 1 else 0)
    case Num(x) => Success(if x >= 0.0 then x.Floor else -((-x).Floor))
    case Str(s) => if ParseInt(s).Some? then Success(ParseInt(s).value) else Failure(Malformed)
    case _ => Failure(Malformed)
  }

  /** `int` of the text `str(n)` writes, with whitespace around it, is `n`. */
  lemma ToIntShown(a: string, n: int, b: string)
    requires IsBlank(a) && IsBlank(b)
    ensures ToInt(Str(a + ShowInt(n) + b)) == Success(n)
  {
    ParseIntShow(a, n, b);
  }

  /** A number is truncated toward zero: the integer lies between zero and the number, less than one away. */
  lemma ToIntTruncates(x: real)
    ensures var i := ToInt(Num(x)).value as real;
      && (x >= 0.0 ==> 0.0 <= i <= x < i + 1.0)
      && (x < 0.0 ==> x <= i <= 0.0 && i - 1.0 < x)
  {
  }

  /** The attribute one row contributes to its instance. */
  function AttributeOf(row: Record): Value {
    Dict(map["groupName" := row.attributeGroupName, "name" := row.attributeName])
  }

  /** `{"groupName": ..., "name": ...}` for each row whose attribute group is not None, in order. */
  function AttributeList(rows: seq<Record>): (r: seq<Value>)
    decreases |rows|
  {
    if rows == [] then []
    else
      var last := rows[|rows| - 1];
      AttributeList(rows[..|rows| - 1]) + (if last.attributeGroupName != Null then [AttributeOf(last)] else [])
  }

  /** The fields of an instance taken from its first row, before its `meta` is merged in. */
  function InstanceFields(first: Record, groupId: int): map<string, Value> {
    map["className" := first.className, "type" := first.annotationType, "attributes" := List([]),
        "probability" := first.probability, "error" := first.error,
        "pointLabels" := if first.pointLabels == Null then List([]) else first.pointLabels,
        "locked" := Bool(Truthy(first.locked)), "visible" := Bool(Truthy(first.visible)),
        "trackingId" := first.trackingId, "groupId" := Int(groupId)]
  }

  /**
   * One instance's document, from the rows of its id: the first row's
   * fields, updated with its `meta` as `dict.update` reads it, and one
   * attribute per row with an attribute group appended to whatever list
   * `attributes` then holds (anything but a list raises).
   */
  function InstanceAnnotation(rows: seq<Record>): (r: Result<Value>)
  {
    if rows == [] then Failure(IndexOutOfRange)
    else
      var first := rows[0];
      var groupId :- ToInt(first.groupId);
      var fields :- DictUpdate(InstanceFields(first, groupId), first.meta);
      var pairs := AttributeList(rows);
      if pairs == [] then Success(Dict(fields))
      else if !fields["attributes"].List? then Failure(Malformed)
      else Success(Dict(fields["attributes" := List(fields["attributes"].items + pairs)]))
  }

  /** What the image's metadata keeps from the instances seen so far (`x = x or first[...]`). */
  datatype Seen = Seen(width: Value, height: Value, pinned: Value, status: Value)

  /** Python's `a or b`. */
  function Or(a: Value, b: Value): (r: Value)
    ensures r == a || r == b
    ensures Truthy(r) <==> Truthy(a) || Truthy(b)
  {
    if Truthy(a) then a else b
  }

  function SeenAfter(seen: Seen, first: Record): Seen {
    Seen(Or(seen.width, first.imageWidth), Or(seen.height, first.imageHeight),
         Or(seen.pinned, first.imagePinned), Or(seen.status, first.imageStatus))
  }

  const NOTHING_SEEN := Seen(Null, Null, Null, Null)

  // ----- one image -----

  /** `image_df[image_df["instanceId"] == id]`. */
  function InstanceRows(imageRows: seq<Record>, id: Value): seq<Record> {
    Where(imageRows, (q: Record) => q.instanceId == id)
  }

  /** The documents of the instances `ids`, in order, and what their first rows tell of the image. */
  function Instances(imageRows: seq<Record>, ids: seq<Value>): (r: Result<(seq<Value>, Seen)>)
    ensures r.Success? ==> |r.value.0| == |ids|
    decreases |ids|
  {
    if ids == [] then Success(([], NOTHING_SEEN))
    else
      var prev :- Instances(imageRows, ids[..|ids| - 1]);
      var rows := InstanceRows(imageRows, ids[|ids| - 1]);
      var own :- InstanceAnnotation(rows);
      Success((prev.0 + [own], SeenAfter(prev.1, rows[0])))
  }

  function CommentRows(imageRows: seq<Record>): seq<Record> {
    Where(imageRows, (q: Record) => q.annotationType == Str("comment"))
  }

  function TagRows(imageRows: seq<Record>): seq<Record> {
    Where(imageRows, (q: Record) => q.annotationType == Str("tag"))
  }

  /**
   * One comment: an empty dict updated with its `meta`, then `comments`
   * renamed to `correspondence` (a missing `comments` raises) and
   * `resolved` set.
   */
  function CommentJson(row: Record): (r: Result<Value>)
    ensures r.Failure? ==> r.error == Malformed
  {
    var m :- DictUpdate(map[], row.meta);
    if "comments" !in m then Failure(Malformed)
    else
      var renamed := m["correspondence" := m["comments"]] - {"comments"};
      Success(Dict(renamed["resolved" := row.commentResolved]))
  }

  /** `f` applied to each of `ks` in turn; the first failure stops the loop. */
  function Each<K, V>(f: K -> Result<V>, ks: seq<K>): (r: Result<seq<V>>)
    decreases |ks|
  {
    if ks == [] then Success([])
    else
      var prev :- Each(f, ks[..|ks| - 1]);
      var own :- f(ks[|ks| - 1]);
      Success(prev + [own])
  }

  /** The loop succeeds exactly when every step does, and then holds each step's value in order. */
  lemma {:induction false} EachExact<K, V>(f: K -> Result<V>, ks: seq<K>)
    ensures Each(f, ks).Success? <==> forall i :: 0 <= i < |ks| ==> f(ks[i]).Success?
    ensures Each(f, ks).Success? ==> |Each(f, ks).value| == |ks|
    ensures Each(f, ks).Success? ==> forall i :: 0 <= i < |ks| ==> Each(f, ks).value[i] == f(ks[i]).value
    decreases |ks|
  {
    if ks != [] {
      var front := ks[..|ks| - 1];
      EachExact(f, front);
      if Each(f, front).Failure? {
        var i :| 0 <= i < |front| && f(front[i]).Failure?;
        assert front[i] == ks[i];
      }
      if Each(f, front).Success? && f(ks[|ks| - 1]).Success? {
        forall i | 0 <= i < |ks|
          ensures f(ks[i]).Success? && Each(f, ks).value[i] == f(ks[i]).value
        {
          if i < |front| {
            assert front[i] == ks[i];
          }
        }
      }
    }
  }

  /** A failure in a prefix is the failure of the whole loop. */
  lemma {:induction false} EachFailsLater<K, V>(f: K -> Result<V>, ks: seq<K>, n: nat)
    requires n <= |ks| && Each(f, ks[..n]).Failure?
    ensures Each(f, ks) == Each(f, ks[..n])
    decreases |ks|
  {
    if n < |ks| {
      var front := ks[..|ks| - 1];
      assert front[..n] == ks[..n];
      EachFailsLater(f, front, n);
    } else {
      assert ks[..n] == ks;
    }
  }

  /** The comments of an image, one per comment row, in order. */
  function Comments(rows: seq<Record>): (r: Result<seq<Value>>) {
    Each(CommentJson, rows)
  }

  function Tags(rows: seq<Record>): (r: seq<Value>)
    ensures |r| == |rows|
    ensures forall i :: 0 <= i < |rows| ==> r[i] == rows[i].tag
  {
    seq(|rows|, i requires 0 <= i < |rows| => rows[i].tag)
  }

  /**
   * The document of one image: its instances in the order their ids first
   * occur, its tags and comments in row order, and the metadata the first
   * rows of its instances give; `int(None)` raises when no instance gives
   * a width or a height.
   */
  function ImageAnnotation(imageRows: seq<Record>): (r: Result<Value>)
  {
    var ids := Unique(Column(imageRows, InstanceId));
    var inst :- Instances(imageRows, ids);
    var comments :- Comments(CommentRows(imageRows));
    var width :- ToInt(inst.1.width);
    var height :- ToInt(inst.1.height);
    var metadata := Dict(map["width" := Int(width), "height" := Int(height), "status" := inst.1.status,
                             "pinned" := Bool(Truthy(inst.1.pinned))]);
    Success(Dict(map["instances" := List(inst.0), "metadata" := metadata,
                     "tags" := List(Tags(TagRows(imageRows))), "comments" := List(comments)]))
  }

  // ----- the classes list -----

  datatype AttributeGroup = AttributeGroup(name: Value, attributes: seq<Value>)
  datatype AnnotationClass = AnnotationClass(name: Value, color: Value, groups: seq<AttributeGroup>)

  /** Where the class named `name` sits, or `|classes|` when there is none (the `for ... else`). */
  function ClassIndex(classes: seq<AnnotationClass>, name: Value): (i: nat)
    ensures i <= |classes|
    ensures i < |classes| ==> classes[i].name == name
    ensures forall k :: 0 <= k < i ==> classes[k].name != name
  {
    if classes == [] then 0
    else if classes[0].name == name then 0
    else 1 + ClassIndex(classes[1..], name)
  }

  /** Where the group named `name` sits, or `|groups|` when there is none. */
  function GroupIndex(groups: seq<AttributeGroup>, name: Value): (i: nat)
    ensures i <= |groups|
    ensures i < |groups| ==> groups[i].name == name
    ensures forall k :: 0 <= k < i ==> groups[k].name != name
  {
    if groups == [] then 0
    else if groups[0].name == name then 0
    else 1 + GroupIndex(groups[1..], name)
  }

  /** The group with `attribute` added unless it is there already. */
  function WithAttribute(g: AttributeGroup, attribute: Value): AttributeGroup {
    if attribute in g.attributes then g else g.(attributes := g.attributes + [attribute])
  }

  /** The class with the row's attribute recorded under its group, the group added when new. */
  function WithGroup(c: AnnotationClass, group: Value, attribute: Value): AnnotationClass {
    var gi := GroupIndex(c.groups, group);
    var gs := if gi == |c.groups| then c.groups + [AttributeGroup(group, [])] else c.groups;
    c.(groups := gs[gi := WithAttribute(gs[gi], attribute)])
  }

  /** The classes with the row's class added, with its colour and no groups, when it is new. */
  function Registered(classes: seq<AnnotationClass>, row: Record): seq<AnnotationClass> {
    if ClassIndex(classes, row.className) == |classes|
    then classes + [AnnotationClass(row.className, row.classColor, [])]
    else classes
  }

  /** One step of the classes loop. */
  function AddRow(classes: seq<AnnotationClass>, row: Record): seq<AnnotationClass> {
    if row.className == Null then classes
    else
      var ci := ClassIndex(classes, row.className);
      var cs := Registered(classes, row);
      if row.attributeGroupName == Null || row.attributeName == Null then cs
      else cs[ci := WithGroup(cs[ci], row.attributeGroupName, row.attributeName)]
  }

  /** `annotation_classes` after the loop over the rows. */
  function Classes(rows: seq<Record>): seq<AnnotationClass>
    decreases |rows|
  {
    if rows == [] then [] else AddRow(Classes(rows[..|rows| - 1]), rows[|rows| - 1])
  }

  // ----- the whole frame -----

  /** `df[df["imageName"] == image]`. */
  function ImageRowsOf(df: seq<Record>, image: Value): seq<Record> {
    Where(df, (q: Record) => q.imageName == image)
  }

  /** The document of one image, paired with the image name it is written under. */
  function DocumentOf(df: seq<Record>, image: Value): Result<(Value, Value)> {
    var own :- ImageAnnotation(ImageRowsOf(df, image));
    Success((image, own))
  }

  function DocumentsOf(df: seq<Record>): Value -> Result<(Value, Value)> {
    image => DocumentOf(df, image)
  }

  /** The documents of the images, in order. */
  function Documents(df: seq<Record>, images: seq<Value>): (r: Result<seq<(Value, Value)>>) {
    Each(DocumentsOf(df), images)
  }

  /** What `df_to_annotations` writes: `<image>___objects.json` per image and `classes/classes.json`. */
  datatype Output = Output(documents: seq<(Value, Value)>, classes: seq<AnnotationClass>)

  function Annotations(df: seq<Record>): Result<Output> {
    var documents :- Documents(df, Unique(Column(df, ImageName)));
    Success(Output(documents, Classes(df)))
  }

  // ----- the loops -----

  /** The attribute loop of one instance. */
  method InstanceAnnotationOf(rows: seq<Record>) returns (r: Result<Value>)
    ensures r == InstanceAnnotation(rows)
  {
    if rows == [] {
      return Failure(IndexOutOfRange);
    }
    var first := rows[0];
    var groupId := ToInt(first.groupId);
    if groupId.Failure? {
      return Failure(groupId.error);
    }
    var merged := DictUpdate(InstanceFields(first, groupId.value), first.meta);
    if merged.Failure? {
      return Failure(merged.error);
    }
    var fields := merged.value;
    var pairs: seq<Value> := [];
    for i := 0 to |rows|
      invariant pairs == AttributeList(rows[..i])
      invariant pairs != [] ==> fields["attributes"].List?
    {
      assert rows[..i + 1][..i] == rows[..i];
      if rows[i].attributeGroupName != Null {
        if !fields["attributes"].List? {
          AttributeListGrows(rows, i + 1);
          return Failure(Malformed);
        }
        pairs := pairs + [AttributeOf(rows[i])];
      }
    }
    assert rows[..|rows|] == rows;
    if pairs == [] {
      return Success(Dict(fields));
    }
    return Success(Dict(fields["attributes" := List(fields["attributes"].items + pairs)]));
  }

  /** A prefix with an attribute gives an attribute to the whole. */
  lemma {:induction false} AttributeListGrows(rows: seq<Record>, n: nat)
    requires 0 < n <= |rows| && rows[n - 1].attributeGroupName != Null
    ensures AttributeList(rows) != []
    decreases |rows|
  {
    if n < |rows| {
      assert rows[..|rows| - 1][n - 1] == rows[n - 1];
      AttributeListGrows(rows[..|rows| - 1], n);
    }
  }

  /** The loop over the instance ids of one image. */
  method InstancesOf(imageRows: seq<Record>, ids: seq<Value>) returns (r: Result<(seq<Value>, Seen)>)
    ensures r == Instances(imageRows, ids)
  {
    var instances: seq<Value> := [];
    var seen := NOTHING_SEEN;
    for i := 0 to |ids|
      invariant Instances(imageRows, ids[..i]) == Success((instances, seen))
    {
      assert ids[..i + 1][..i] == ids[..i];
      var rows := InstanceRows(imageRows, ids[i]);
      var own := InstanceAnnotationOf(rows);
      if own.Failure? {
        InstancesFailLater(imageRows, ids, i + 1);
        return Failure(own.error);
      }
      instances := instances + [own.value];
      seen := SeenAfter(seen, rows[0]);
    }
    assert ids[..|ids|] == ids;
    return Success((instances, seen));
  }

  /** The loop over the comment rows of one image. */
  method CommentsOf(commentRows: seq<Record>) returns (r: Result<seq<Value>>)
    ensures r == Comments(commentRows)
  {
    var comments: seq<Value> := [];
    for i := 0 to |commentRows|
      invariant Comments(commentRows[..i]) == Success(comments)
    {
      assert commentRows[..i + 1][..i] == commentRows[..i];
      var own := CommentJson(commentRows[i]);
      if own.Failure? {
        EachFailsLater(CommentJson, commentRows, i + 1);
        return Failure(own.error);
      }
      comments := comments + [own.value];
    }
    assert commentRows[..|commentRows|] == commentRows;
    return Success(comments);
  }

  /** The loop over the tag rows of one image. */
  method TagsOf(tagRows: seq<Record>) returns (tags: seq<Value>)
    ensures tags == Tags(tagRows)
  {
    tags := [];
    for i := 0 to |tagRows|
      invariant tags == Tags(tagRows[..i])
    {
      tags := tags + [tagRows[i].tag];
    }
    assert tagRows[..|tagRows|] == tagRows;
  }

  /** One image's document: its instances, comments and tags, then its metadata. */
  method ImageAnnotationOf(imageRows: seq<Record>) returns (r: Result<Value>)
    ensures r == ImageAnnotation(imageRows)
  {
    var inst := InstancesOf(imageRows, Unique(Column(imageRows, InstanceId)));
    if inst.Failure? {
      return Failure(inst.error);
    }
    var comments := CommentsOf(CommentRows(imageRows));
    if comments.Failure? {
      return Failure(comments.error);
    }
    var tags := TagsOf(TagRows(imageRows));
    var seen := inst.value.1;
    var width := ToInt(seen.width);
    if width.Failure? {
      return Failure(width.error);
    }
    var height := ToInt(seen.height);
    if height.Failure? {
      return Failure(height.error);
    }
    var metadata := Dict(map["width" := Int(width.value), "height" := Int(height.value), "status" := seen.status,
                             "pinned" := Bool(Truthy(seen.pinned))]);
    return Success(Dict(map["instances" := List(inst.value.0), "metadata" := metadata,
                            "tags" := List(tags), "comments" := List(comments.value)]));
  }

  /** Once a prefix of the instances fails, all of them fail. */
  lemma {:induction false} InstancesFailLater(imageRows: seq<Record>, ids: seq<Value>, n: nat)
    requires n <= |ids| && Instances(imageRows, ids[..n]).Failure?
    ensures Instances(imageRows, ids).Failure?
    ensures Instances(imageRows, ids).error == Instances(imageRows, ids[..n]).error
    decreases |ids|
  {
    if n < |ids| {
      var front := ids[..|ids| - 1];
      assert front[..n] == ids[..n];
      InstancesFailLater(imageRows, front, n);
    } else {
      assert ids[..n] == ids;
    }
  }


  /** The `for annotation_class in annotation_classes` search. */
  method FindClass(classes: seq<AnnotationClass>, name: Value) returns (i: nat)
    ensures i == ClassIndex(classes, name)
  {
    i := 0;
    while i < |classes| && classes[i].name != name
      invariant i <= |classes|
      invariant forall k :: 0 <= k < i ==> classes[k].name != name
    {
      i := i + 1;
    }
  }

  /** The `for attribute_group in annotation_class["attribute_groups"]` search. */
  method FindGroup(groups: seq<AttributeGroup>, name: Value) returns (i: nat)
    ensures i == GroupIndex(groups, name)
  {
    i := 0;
    while i < |groups| && groups[i].name != name
      invariant i <= |groups|
      invariant forall k :: 0 <= k < i ==> groups[k].name != name
    {
      i := i + 1;
    }
  }

  /** The `for attribute in attribute_group["attributes"]` search. */
  method FindAttribute(attributes: seq<Value>, name: Value) returns (found: bool)
    ensures found <==> name in attributes
  {
    found := false;
    var i := 0;
    while i < |attributes| && !found
      invariant i <= |attributes|
      invariant found <==> name in attributes[..i]
    {
      assert attributes[..i + 1] == attributes[..i] + [attributes[i]];
      found := attributes[i] == name;
      i := i + 1;
    }
    assert found || attributes[..i] == attributes;
  }

  /** The loop over the rows that builds the classes list. */
  method ClassesOf(rows: seq<Record>) returns (classes: seq<AnnotationClass>)
    ensures classes == Classes(rows)
  {
    classes := [];
    for n := 0 to |rows|
      invariant classes == Classes(rows[..n])
    {
      assert rows[..n + 1][..n] == rows[..n];
      var row := rows[n];
      if row.className == Null {
        continue;
      }
      var ci := FindClass(classes, row.className);
      if ci == |classes| {
        classes := classes + [AnnotationClass(row.className, row.classColor, [])];
      }
      if row.attributeGroupName == Null || row.attributeName == Null {
        continue;
      }
      var c := classes[ci];
      var gi := FindGroup(c.groups, row.attributeGroupName);
      var groups := c.groups;
      if gi == |groups| {
        groups := groups + [AttributeGroup(row.attributeGroupName, [])];
      }
      var g := groups[gi];
      var found := FindAttribute(g.attributes, row.attributeName);
      if !found {
        g := g.(attributes := g.attributes + [row.attributeName]);
      }
      classes := classes[ci := c.(groups := groups[gi := g])];
    }
    assert rows[..|rows|] == rows;
  }

  /** One more image adds its document, or fails with the document's error. */
  lemma DocumentsStep(df: seq<Record>, images: seq<Value>, i: nat, documents: seq<(Value, Value)>)
    requires i < |images| && Documents(df, images[..i]) == Success(documents)
    ensures var own := ImageAnnotation(ImageRowsOf(df, images[i]));
      && (own.Success? ==> Documents(df, images[..i + 1]) == Success(documents + [(images[i], own.value)]))
      && (own.Failure? ==> Documents(df, images[..i + 1]) == Failure(own.error))
  {
    assert images[..i + 1][..i] == images[..i];
  }

  /** The loop over the images, then the classes. */
  method DfToAnnotations(df: seq<Record>) returns (r: Result<Output>)
    ensures r == Annotations(df)
  {
    var images := Unique(Column(df, ImageName));
    var documents: seq<(Value, Value)> := [];
    for i := 0 to |images|
      invariant Documents(df, images[..i]) == Success(documents)
    {
      var own := ImageAnnotationOf(ImageRowsOf(df, images[i]));
      DocumentsStep(df, images, i, documents);
      if own.Failure? {
        EachFailsLater(DocumentsOf(df), images, i + 1);
        return Failure(own.error);
      }
      documents := documents + [(images[i], own.value)];
    }
    assert images[..|images|] == images;
    var classes := ClassesOf(df);
    return Success(Output(documents, classes));
  }


  // ----- what the classes list holds -----

  function ClassNames(classes: seq<AnnotationClass>): (names: seq<Value>)
    ensures |names| == |classes|
    ensures forall i :: 0 <= i < |classes| ==> names[i] == classes[i].name
  {
    seq(|classes|, i requires 0 <= i < |classes| => classes[i].name)
  }

  /** The search finds a class exactly when one has the name. */
  lemma ClassIndexFound(classes: seq<AnnotationClass>, name: Value)
    ensures ClassIndex(classes, name) < |classes| <==> name in ClassNames(classes)
  {
    var names := ClassNames(classes);
    if name in names {
      var k :| 0 <= k < |names| && names[k] == name;
      assert classes[k].name == name;
    }
  }

  /** A row adds its class name at the end, the first time the name occurs, and changes no name. */
  lemma AddRowNames(classes: seq<AnnotationClass>, row: Record)
    ensures ClassNames(AddRow(classes, row)) ==
      if row.className == Null || row.className in ClassNames(classes) then ClassNames(classes)
      else ClassNames(classes) + [row.className]
  {
    ClassIndexFound(classes, row.className);
  }

  /** The classes are the non-None class names, each once, in the order they first occur. */
  lemma {:induction false} ClassNamesUnique(rows: seq<Record>)
    ensures ClassNames(Classes(rows)) == Unique(Column(rows, ClassName))
    decreases |rows|
  {
    if rows != [] {
      var front := rows[..|rows| - 1];
      var last := rows[|rows| - 1];
      ButLast(rows);
      ClassNamesUnique(front);
      AddRowNames(Classes(front), last);
      ClassColumnExtend(front, last);
      UniqueSnoc(Column(front, ClassName), last.className);
    }
  }

  /** No two class names are equal, and none is None. */
  lemma ClassNamesDistinct(rows: seq<Record>)
    ensures forall i, j :: 0 <= i < j < |Classes(rows)| ==> Classes(rows)[i].name != Classes(rows)[j].name
    ensures forall i :: 0 <= i < |Classes(rows)| ==> Classes(rows)[i].name != Null
  {
    ClassNamesUnique(rows);
    UniqueExact(Column(rows, ClassName));
    var names := ClassNames(Classes(rows));
    forall i | 0 <= i < |Classes(rows)| ensures Classes(rows)[i].name != Null {
      assert names[i] in names;
    }
  }

  predicate Distinct(vs: seq<Value>) {
    forall i, j :: 0 <= i < j < |vs| ==> vs[i] != vs[j]
  }

  /** Within a class the group names differ, and within a group the attribute names differ. */
  predicate Tidy(classes: seq<AnnotationClass>) {
    forall c :: c in classes ==>
      && (forall i, j :: 0 <= i < j < |c.groups| ==> c.groups[i].name != c.groups[j].name)
      && (forall g :: g in c.groups ==> Distinct(g.attributes))
  }

  lemma WithAttributeDistinct(g: AttributeGroup, attribute: Value)
    requires Distinct(g.attributes)
    ensures Distinct(WithAttribute(g, attribute).attributes)
  {
  }

  lemma WithGroupTidy(c: AnnotationClass, group: Value, attribute: Value)
    requires Tidy([c])
    ensures Tidy([WithGroup(c, group, attribute)])
  {
    var gi := GroupIndex(c.groups, group);
    var gs := if gi == |c.groups| then c.groups + [AttributeGroup(group, [])] else c.groups;
    assert forall g :: g in gs ==> Distinct(g.attributes);
    WithAttributeDistinct(gs[gi], attribute);
    var c' := WithGroup(c, group, attribute);
    assert c'.groups == gs[gi := WithAttribute(gs[gi], attribute)];
    forall g | g in c'.groups ensures Distinct(g.attributes) {
      var k :| 0 <= k < |c'.groups| && c'.groups[k] == g;
      if k != gi {
        assert g == gs[k];
      }
    }
  }

  lemma AddRowTidy(classes: seq<AnnotationClass>, row: Record)
    requires Tidy(classes)
    ensures Tidy(AddRow(classes, row))
  {
    if row.className != Null {
      var ci := ClassIndex(classes, row.className);
      var cs := if ci == |classes| then classes + [AnnotationClass(row.className, row.classColor, [])] else classes;
      assert Tidy(cs);
      if row.attributeGroupName != Null && row.attributeName != Null {
        assert Tidy([cs[ci]]);
        WithGroupTidy(cs[ci], row.attributeGroupName, row.attributeName);
        var out := cs[ci := WithGroup(cs[ci], row.attributeGroupName, row.attributeName)];
        forall c | c in out
          ensures && (forall i, j :: 0 <= i < j < |c.groups| ==> c.groups[i].name != c.groups[j].name)
                  && (forall g :: g in c.groups ==> Distinct(g.attributes))
        {
          var k :| 0 <= k < |out| && out[k] == c;
          if k == ci {
            assert c in [WithGroup(cs[ci], row.attributeGroupName, row.attributeName)];
          } else {
            assert c == cs[k];
          }
        }
      }
    }
  }

  /** The search through the groups keeps their names apart and each group's attributes apart. */
  lemma {:induction false} ClassesTidy(rows: seq<Record>)
    ensures Tidy(Classes(rows))
    decreases |rows|
  {
    if rows != [] {
      ClassesTidy(rows[..|rows| - 1]);
      AddRowTidy(Classes(rows[..|rows| - 1]), rows[|rows| - 1]);
    }
  }

  /** The group named `group` holds `attribute`. */
  predicate InGroups(groups: seq<AttributeGroup>, group: Value, attribute: Value) {
    var gi := GroupIndex(groups, group);
    gi < |groups| && attribute in groups[gi].attributes
  }

  /** The class named `name` has a group named `group` that holds `attribute`. */
  predicate Recorded(classes: seq<AnnotationClass>, name: Value, group: Value, attribute: Value) {
    var ci := ClassIndex(classes, name);
    ci < |classes| && InGroups(classes[ci].groups, group, attribute)
  }

  /** The row names this class, group and attribute, none of them None. */
  predicate RowRecords(row: Record, name: Value, group: Value, attribute: Value) {
    && row.className == name && name != Null
    && row.attributeGroupName == group && group != Null
    && row.attributeName == attribute && attribute != Null
  }

  lemma ClassIndexAppend(classes: seq<AnnotationClass>, c: AnnotationClass, name: Value)
    ensures ClassIndex(classes + [c], name) ==
      if ClassIndex(classes, name) < |classes| then ClassIndex(classes, name)
      else if c.name == name then |classes| else |classes| + 1
  {
    var i := ClassIndex(classes + [c], name);
    var j := ClassIndex(classes, name);
    if j < |classes| {
      assert (classes + [c])[j].name == name;
    } else if c.name == name {
      assert (classes + [c])[|classes|].name == name;
    }
    if i < |classes| {
      assert classes[i].name == name;
    }
  }

  lemma ClassIndexUpdate(classes: seq<AnnotationClass>, k: nat, c: AnnotationClass, name: Value)
    requires k < |classes| && c.name == classes[k].name
    ensures ClassIndex(classes[k := c], name) == ClassIndex(classes, name)
  {
    var i := ClassIndex(classes[k := c], name);
    var j := ClassIndex(classes, name);
    if j < |classes| {
      assert classes[k := c][j].name == name;
    }
    if i < |classes| {
      assert classes[i].name == name;
    }
  }

  lemma GroupIndexAppend(groups: seq<AttributeGroup>, g: AttributeGroup, name: Value)
    ensures GroupIndex(groups + [g], name) ==
      if GroupIndex(groups, name) < |groups| then GroupIndex(groups, name)
      else if g.name == name then |groups| else |groups| + 1
  {
    var i := GroupIndex(groups + [g], name);
    var j := GroupIndex(groups, name);
    if j < |groups| {
      assert (groups + [g])[j].name == name;
    } else if g.name == name {
      assert (groups + [g])[|groups|].name == name;
    }
    if i < |groups| {
      assert groups[i].name == name;
    }
  }

  lemma GroupIndexUpdate(groups: seq<AttributeGroup>, k: nat, g: AttributeGroup, name: Value)
    requires k < |groups| && g.name == groups[k].name
    ensures GroupIndex(groups[k := g], name) == GroupIndex(groups, name)
  {
    var i := GroupIndex(groups[k := g], name);
    var j := GroupIndex(groups, name);
    if j < |groups| {
      assert groups[k := g][j].name == name;
    }
    if i < |groups| {
      assert groups[i].name == name;
    }
  }

  /** Recording an attribute under a group adds exactly that pair. */
  lemma WithGroupRecords(c: AnnotationClass, group: Value, attribute: Value, g: Value, a: Value)
    ensures InGroups(WithGroup(c, group, attribute).groups, g, a) <==>
      InGroups(c.groups, g, a) || (g == group && a == attribute)
  {
    var gi := GroupIndex(c.groups, group);
    if gi == |c.groups| {
      WithNewGroup(c.groups, group, attribute, g, a);
    } else {
      WithAttributeAt(c.groups, gi, group, attribute, g, a);
    }
  }

  /** A group not there yet is appended and holds just the attribute. */
  lemma WithNewGroup(groups: seq<AttributeGroup>, group: Value, attribute: Value, g: Value, a: Value)
    requires GroupIndex(groups, group) == |groups|
    ensures var gs := groups + [AttributeGroup(group, [])];
      InGroups(gs[|groups| := WithAttribute(gs[|groups|], attribute)], g, a) <==>
      InGroups(groups, g, a) || (g == group && a == attribute)
  {
    var gs := groups + [AttributeGroup(group, [])];
    GroupIndexAppend(groups, AttributeGroup(group, []), g);
    GroupIndexAppend(groups, AttributeGroup(group, []), group);
    assert InGroups(gs, g, a) <==> InGroups(groups, g, a);
    WithAttributeAt(gs, |groups|, group, attribute, g, a);
  }

  /** Adding an attribute to the group the search found adds exactly that pair. */
  lemma WithAttributeAt(gs: seq<AttributeGroup>, gi: nat, group: Value, attribute: Value, g: Value, a: Value)
    requires gi < |gs| && GroupIndex(gs, group) == gi
    ensures InGroups(gs[gi := WithAttribute(gs[gi], attribute)], g, a) <==>
      InGroups(gs, g, a) || (g == group && a == attribute)
  {
    GroupIndexUpdate(gs, gi, WithAttribute(gs[gi], attribute), g);
    var j := GroupIndex(gs, g);
    if j == gi {
      assert g == group by { assert gs[j].name == g; }
      assert a in WithAttribute(gs[gi], attribute).attributes <==> a in gs[gi].attributes || a == attribute;
    } else {
      assert g != group;
    }
  }

  /** Adding the row's class records nothing new, and the class then sits where the search found it. */
  lemma RegisteredRecords(classes: seq<AnnotationClass>, row: Record, x: Value, g: Value, a: Value)
    ensures Recorded(Registered(classes, row), x, g, a) <==> Recorded(classes, x, g, a)
    ensures ClassIndex(Registered(classes, row), row.className) == ClassIndex(classes, row.className)
    ensures ClassIndex(classes, row.className) < |Registered(classes, row)|
  {
    var added := AnnotationClass(row.className, row.classColor, []);
    if ClassIndex(classes, row.className) == |classes| {
      ClassIndexAppend(classes, added, x);
      ClassIndexAppend(classes, added, row.className);
    }
  }

  /** Replacing one class by another of the same name changes only what that class records. */
  lemma RecordedUpdate(classes: seq<AnnotationClass>, k: nat, c: AnnotationClass, x: Value, g: Value, a: Value)
    requires k < |classes| && c.name == classes[k].name
    ensures Recorded(classes[k := c], x, g, a) <==>
      if ClassIndex(classes, x) == k then InGroups(c.groups, g, a) else Recorded(classes, x, g, a)
  {
    ClassIndexUpdate(classes, k, c, x);
  }

  /** Recording an attribute in the class at `k` adds exactly that triple. */
  lemma UpdateRecords(classes: seq<AnnotationClass>, k: nat, group: Value, attribute: Value,
                      x: Value, g: Value, a: Value)
    requires k < |classes| && ClassIndex(classes, classes[k].name) == k
    ensures Recorded(classes[k := WithGroup(classes[k], group, attribute)], x, g, a) <==>
      Recorded(classes, x, g, a) || (x == classes[k].name && g == group && a == attribute)
  {
    var c' := WithGroup(classes[k], group, attribute);
    RecordedUpdate(classes, k, c', x, g, a);
    if ClassIndex(classes, x) == k {
      WithGroupRecords(classes[k], group, attribute, g, a);
    }
  }

  /** A row with a class, a group and an attribute updates its class where the search found it. */
  lemma AddRowTripleShape(classes: seq<AnnotationClass>, row: Record)
    requires row.className != Null && row.attributeGroupName != Null && row.attributeName != Null
    ensures var ci := ClassIndex(classes, row.className);
      var cs := Registered(classes, row);
      && ci < |cs| && cs[ci].name == row.className && ClassIndex(cs, cs[ci].name) == ci
      && AddRow(classes, row) == cs[ci := WithGroup(cs[ci], row.attributeGroupName, row.attributeName)]
  {
    RegisteredRecords(classes, row, Null, Null, Null);
  }

  lemma AddRowRecordsTriple(classes: seq<AnnotationClass>, row: Record, x: Value, g: Value, a: Value)
    requires row.className != Null && row.attributeGroupName != Null && row.attributeName != Null
    ensures Recorded(AddRow(classes, row), x, g, a) <==> Recorded(classes, x, g, a) || RowRecords(row, x, g, a)
  {
    var ci := ClassIndex(classes, row.className);
    var cs := Registered(classes, row);
    AddRowTripleShape(classes, row);
    var updated := cs[ci := WithGroup(cs[ci], row.attributeGroupName, row.attributeName)];
    var before := Recorded(classes, x, g, a);
    var mid := Recorded(cs, x, g, a);
    var after := Recorded(updated, x, g, a);
    var own := RowRecords(row, x, g, a);
    RegisteredRecords(classes, row, x, g, a);
    assert mid == before;
    UpdateRecords(cs, ci, row.attributeGroupName, row.attributeName, x, g, a);
    assert after == (mid || own);
  }

  /** A row records its own class, group and attribute, and nothing else. */
  lemma AddRowRecords(classes: seq<AnnotationClass>, row: Record, x: Value, g: Value, a: Value)
    ensures Recorded(AddRow(classes, row), x, g, a) <==> Recorded(classes, x, g, a) || RowRecords(row, x, g, a)
  {
    if row.className == Null {
      assert AddRow(classes, row) == classes;
    } else if row.attributeGroupName != Null && row.attributeName != Null {
      AddRowRecordsTriple(classes, row, x, g, a);
    } else {
      AddRowRecordsClass(classes, row, x, g, a);
    }
  }

  /** A row with a class but no attribute only registers its class. */
  lemma AddRowRecordsClass(classes: seq<AnnotationClass>, row: Record, x: Value, g: Value, a: Value)
    requires row.className != Null && (row.attributeGroupName == Null || row.attributeName == Null)
    ensures Recorded(AddRow(classes, row), x, g, a) <==> Recorded(classes, x, g, a)
  {
    RegisteredRecords(classes, row, x, g, a);
    assert AddRow(classes, row) == Registered(classes, row);
  }

  /**
   * The classes list records a class, group and attribute exactly when
   * some row names all three, none of them None.
   */
  lemma {:induction false} ClassesRecord(rows: seq<Record>, x: Value, g: Value, a: Value)
    ensures Recorded(Classes(rows), x, g, a) <==> exists r :: r in rows && RowRecords(r, x, g, a)
    decreases |rows|
  {
    if rows != [] {
      var front := rows[..|rows| - 1];
      ClassesRecord(front, x, g, a);
      AddRowRecords(Classes(front), rows[|rows| - 1], x, g, a);
      assert rows == front + [rows[|rows| - 1]];
    }
  }

  /** Each class has the colour of the first row that names it. */
  predicate ColorsFirst(rows: seq<Record>, classes: seq<AnnotationClass>) {
    forall i :: 0 <= i < |classes| ==>
      && classes[i].name in Column(rows, ClassName)
      && classes[i].color == rows[FirstAt(Column(rows, ClassName), classes[i].name)].classColor
  }

  /** A value's first occurrence does not move when the sequence grows. */
  lemma FirstAtExtend(vs: seq<Value>, v: Value, x: Value)
    requires x in vs + [v]
    ensures FirstAt(vs + [v], x) == if x in vs then FirstAt(vs, x) else |vs|
  {
    assert (vs + [v])[..|vs|] == vs;
  }

  /** The class column of one more row is the old column and the row's class. */
  lemma ClassColumnExtend(front: seq<Record>, last: Record)
    ensures Column(front + [last], ClassName) == Column(front, ClassName) + [last.className]
  {
    var rows := front + [last];
    assert rows[..|rows| - 1] == front;
  }

  /** A colour chosen by an earlier row stays the colour of the first row naming the class. */
  lemma ColorKept(front: seq<Record>, last: Record, name: Value, color: Value)
    requires name in Column(front, ClassName)
    requires color == front[FirstAt(Column(front, ClassName), name)].classColor
    ensures name in Column(front + [last], ClassName)
    ensures color == (front + [last])[FirstAt(Column(front + [last], ClassName), name)].classColor
  {
    ClassColumnExtend(front, last);
    FirstAtExtend(Column(front, ClassName), last.className, name);
  }

  /** A class first named by the new row takes that row's colour. */
  lemma ColorNew(front: seq<Record>, last: Record)
    requires last.className !in Column(front, ClassName)
    ensures last.className in Column(front + [last], ClassName)
    ensures last.classColor == (front + [last])[FirstAt(Column(front + [last], ClassName), last.className)].classColor
  {
    ClassColumnExtend(front, last);
    FirstAtExtend(Column(front, ClassName), last.className, last.className);
  }

  /** One row keeps the colours already chosen and gives a new class its own colour. */
  lemma ColorsGrow(front: seq<Record>, last: Record, cs: seq<AnnotationClass>, out: seq<AnnotationClass>)
    requires ColorsFirst(front, cs)
    requires |cs| <= |out| <= |cs| + 1
    requires forall i :: 0 <= i < |cs| ==> out[i].name == cs[i].name && out[i].color == cs[i].color
    requires |out| == |cs| + 1 ==>
      out[|cs|].name == last.className && out[|cs|].color == last.classColor && last.className !in Column(front, ClassName)
    ensures ColorsFirst(front + [last], out)
  {
    forall i | 0 <= i < |out|
      ensures out[i].name in Column(front + [last], ClassName)
      ensures out[i].color == (front + [last])[FirstAt(Column(front + [last], ClassName), out[i].name)].classColor
    {
      if i < |cs| {
        ColorKept(front, last, out[i].name, out[i].color);
      } else {
        ColorNew(front, last);
      }
    }
  }

  lemma ColorsStep(rows: seq<Record>)
    requires rows != [] && ColorsFirst(rows[..|rows| - 1], Classes(rows[..|rows| - 1]))
    ensures ColorsFirst(rows, Classes(rows))
  {
    var front := rows[..|rows| - 1];
    var last := rows[|rows| - 1];
    var cs := Classes(front);
    ButLast(rows);
    assert Classes(rows) == AddRow(cs, last);
    AddRowColors(cs, last);
    NewClassUnseen(front, last);
    ColorsGrow(front, last, cs, AddRow(cs, last));
  }

  /** A non-empty frame is its rows but the last, then the last. */
  lemma ButLast(rows: seq<Record>)
    requires rows != []
    ensures rows == rows[..|rows| - 1] + [rows[|rows| - 1]]
  {
  }

  /** A row that adds a class names one no earlier row named. */
  lemma NewClassUnseen(front: seq<Record>, last: Record)
    ensures |AddRow(Classes(front), last)| == |Classes(front)| + 1 ==> last.className !in Column(front, ClassName)
  {
    var cs := Classes(front);
    AddRowNames(cs, last);
    ClassNamesUnique(front);
    if |AddRow(cs, last)| == |cs| + 1 {
      assert last.className != Null && last.className !in Unique(Column(front, ClassName));
      UniqueMember(Column(front, ClassName), last.className);
    }
  }

  /** A value other than None is among the distinct values iff it occurs. */
  lemma UniqueMember(vs: seq<Value>, x: Value)
    requires x != Null
    ensures x in Unique(vs) <==> x in vs
  {
    UniqueExact(vs);
  }

  /** A class keeps the colour of the first row that names it. */
  lemma {:induction false} ClassesColor(rows: seq<Record>)
    ensures ColorsFirst(rows, Classes(rows))
    decreases |rows|
  {
    if rows != [] {
      ClassesColor(rows[..|rows| - 1]);
      ColorsStep(rows);
    }
  }

  /** A row keeps every class's name and colour, and appends at most its own class, in its colour. */
  lemma AddRowColors(classes: seq<AnnotationClass>, row: Record)
    ensures var out := AddRow(classes, row);
      && |classes| <= |out| <= |classes| + 1
      && (forall i :: 0 <= i < |classes| ==> out[i].name == classes[i].name && out[i].color == classes[i].color)
      && (|out| == |classes| + 1 ==> out[|classes|].name == row.className && out[|classes|].color == row.classColor)
  {
    AddRowNames(classes, row);
  }

  // ----- comments and tags come back -----

  /** The comment `df_to_annotations` writes for a comment the aggregation read. */
  function RestoredComment(c: map<string, Value>): Value
    requires "x" in c && "y" in c && "correspondence" in c && "resolved" in c
  {
    Dict(map["x" := c["x"], "y" := c["y"], "correspondence" := c["correspondence"], "resolved" := c["resolved"]])
  }

  /** A comment row of the aggregation turns back into the comment's position, correspondence and resolution. */
  lemma CommentRestores(c: Value, im: Aggregation.ImageInfo)
    requires Aggregation.CommentRecord(c, im).Success?
    ensures c.Dict? && "x" in c.fields && "y" in c.fields && "correspondence" in c.fields && "resolved" in c.fields
    ensures CommentJson(Aggregation.CommentRecord(c, im).value) == Success(RestoredComment(c.fields))
  {
    var m := c.fields;
    var meta := map["x" := m["x"], "y" := m["y"], "comments" := m["correspondence"]];
    assert map[] + meta == meta;
    assert DictUpdate(map[], Dict(meta)) == Success(meta);
    var renamed := meta["correspondence" := meta["comments"]] - {"comments"};
    assert renamed["resolved" := m["resolved"]]
        == map["x" := m["x"], "y" := m["y"], "correspondence" := m["correspondence"], "resolved" := m["resolved"]];
  }

  /** A mask that accepts every row keeps them all. */
  lemma {:induction false} WhereAll(rows: seq<Record>, keep: Record -> bool)
    requires forall i :: 0 <= i < |rows| ==> keep(rows[i])
    ensures Where(rows, keep) == rows
    decreases |rows|
  {
    if rows != [] {
      WhereAll(rows[..|rows| - 1], keep);
    }
  }

  /** The tags of an image's tag rows are the tags the aggregation read, in order. */
  lemma TagsRestore(ts: seq<Value>, im: Aggregation.ImageInfo)
    ensures Tags(TagRows(Aggregation.TagRecords(ts, im))) == ts
  {
    WhereAll(Aggregation.TagRecords(ts, im), (q: Record) => q.annotationType == Str("tag"));
  }

  /** The comments of an image's comment rows are the comments the aggregation read, restored, in order. */
  lemma CommentsRestore(cs: seq<Value>, im: Aggregation.ImageInfo)
    requires Aggregation.CommentRecords(cs, im).Success?
    ensures var r := Comments(CommentRows(Aggregation.CommentRecords(cs, im).value));
      && r.Success? && |r.value| == |cs|
      && forall i :: 0 <= i < |cs| ==>
           (&& cs[i].Dict? && "x" in cs[i].fields && "y" in cs[i].fields
            && "correspondence" in cs[i].fields && "resolved" in cs[i].fields
            && r.value[i] == RestoredComment(cs[i].fields))
  {
    var recs := Aggregation.CommentRecords(cs, im).value;
    WhereAll(recs, (q: Record) => q.annotationType == Str("comment"));
    forall i | 0 <= i < |cs| ensures CommentJson(recs[i]) == Success(RestoredComment(cs[i].fields)) {
      CommentRestores(cs[i], im);
    }
    EachExact(CommentJson, recs);
  }


  // ----- instances and images -----

  /** An instance carries one attribute per row with an attribute group, and no other. */
  lemma {:induction false} AttributeListExact(rows: seq<Record>)
    ensures forall v :: v in AttributeList(rows) <==> exists r :: r in rows && r.attributeGroupName != Null && v == AttributeOf(r)
    decreases |rows|
  {
    if rows != [] {
      var front := rows[..|rows| - 1];
      AttributeListExact(front);
      assert rows == front + [rows[|rows| - 1]];
    }
  }

  /**
   * An instance document exists when its rows are non-empty, the group id
   * converts, `dict.update` accepts `meta`, and `attributes` after the
   * update, when there are attributes to add, is a list. For a dict `meta`
   * that is its own `attributes`, when it has one; an empty list or string
   * `meta` changes nothing, so only the group id can fail.
   */
  lemma InstanceAnnotationSucceeds(rows: seq<Record>)
    ensures InstanceAnnotation(rows).Success? <==>
      && rows != [] && ToInt(rows[0].groupId).Success? && Updatable(rows[0].meta)
      && (AttributeList(rows) != [] ==>
            DictUpdate(InstanceFields(rows[0], ToInt(rows[0].groupId).value), rows[0].meta).value["attributes"].List?)
    ensures rows != [] && rows[0].meta.Dict? ==>
      (InstanceAnnotation(rows).Success? <==>
        && ToInt(rows[0].groupId).Success?
        && (AttributeList(rows) != [] && "attributes" in rows[0].meta.fields ==> rows[0].meta.fields["attributes"].List?))
    ensures rows != [] && (rows[0].meta == List([]) || rows[0].meta == Str("")) ==>
      (InstanceAnnotation(rows).Success? <==> ToInt(rows[0].groupId).Success?)
  {
  }

  /**
   * An instance document holds the first row's fields with `meta` laid over
   * them, and the rows' attributes follow whatever list `attributes` then
   * holds.
   */
  lemma InstanceAnnotationFields(rows: seq<Record>)
    requires InstanceAnnotation(rows).Success?
    ensures rows != [] && ToInt(rows[0].groupId).Success? && Updatable(rows[0].meta)
    ensures var merged := DictUpdate(InstanceFields(rows[0], ToInt(rows[0].groupId).value), rows[0].meta).value;
      var f := InstanceAnnotation(rows).value;
      && f.Dict? && f.fields.Keys == merged.Keys
      && forall k :: k in merged && k != "attributes" ==> f.fields[k] == merged[k]
    ensures rows[0].meta.Dict? ==> var m := rows[0].meta.fields;
      var base := InstanceFields(rows[0], ToInt(rows[0].groupId).value);
      var f := InstanceAnnotation(rows).value;
      && f.Dict? && f.fields.Keys == base.Keys + m.Keys
      && (forall k :: k in m && k != "attributes" ==> f.fields[k] == m[k])
      && (forall k :: k in base && k !in m && k != "attributes" ==> f.fields[k] == base[k])
  {
  }

  /** The rows' attributes are appended to the list `attributes` holds after `meta` is merged. */
  lemma InstanceAnnotationAttributes(rows: seq<Record>)
    requires InstanceAnnotation(rows).Success?
    ensures rows != [] && ToInt(rows[0].groupId).Success? && Updatable(rows[0].meta)
    ensures var merged := DictUpdate(InstanceFields(rows[0], ToInt(rows[0].groupId).value), rows[0].meta).value;
      var f := InstanceAnnotation(rows).value;
      && f.Dict? && "attributes" in f.fields
      && f.fields["attributes"] ==
           if AttributeList(rows) == [] then merged["attributes"] else List(merged["attributes"].items + AttributeList(rows))
    ensures rows[0].meta.Dict? ==> var m := rows[0].meta.fields;
      var own := if "attributes" in m then m["attributes"] else List([]);
      var f := InstanceAnnotation(rows).value;
      && f.Dict? && "attributes" in f.fields
      && f.fields["attributes"] == if AttributeList(rows) == [] then own else List(own.items + AttributeList(rows))
  {
  }

  /**
   * A row whose `meta` is an empty list or string builds the instance from
   * the row's own fields, and a `meta` list of key/value pairs sets those
   * keys, as `dict.update` does.
   */
  lemma InstanceMetaSequences(m: Value)
    requires m == List([]) || m == Str("")
    ensures var row := EMPTY.(instanceId := Int(0), groupId := Int(0), meta := m);
      InstanceAnnotation([row]) == Success(Dict(InstanceFields(row, 0)))
    ensures var row := EMPTY.(instanceId := Int(0), groupId := Int(0), meta := List([List([Str("x"), Int(1)])]));
      var r := InstanceAnnotation([row]);
      r.Success? && r.value.Dict? && r.value.fields == InstanceFields(row, 0)["x" := Int(1)]
  {
    var row := EMPTY.(instanceId := Int(0), groupId := Int(0), meta := List([List([Str("x"), Int(1)])]));
    var items := [List([Str("x"), Int(1)])];
    assert items[..0] == [];
    assert UpdatePairs(InstanceFields(row, 0), items) == Success(InstanceFields(row, 0)["x" := Int(1)]);
    assert [row][..0] == [];
    assert AttributeList([row]) == [];
    assert ToInt(row.groupId) == Success(0);
    assert DictUpdate(InstanceFields(row, 0), row.meta) == Success(InstanceFields(row, 0)["x" := Int(1)]);
  }

  /** A column of None cells has no distinct values. */
  lemma {:induction false} UniqueOfNone(vs: seq<Value>)
    requires forall i :: 0 <= i < |vs| ==> vs[i] == Null
    ensures Unique(vs) == []
    decreases |vs|
  {
    if vs != [] {
      UniqueOfNone(vs[..|vs| - 1]);
    }
  }

  /** An image none of whose rows has an instance id has no width: `int(None)` raises. */
  lemma NoInstancesFails(imageRows: seq<Record>)
    requires forall i :: 0 <= i < |imageRows| ==> imageRows[i].instanceId == Null
    ensures ImageAnnotation(imageRows).Failure?
  {
    var col := Column(imageRows, InstanceId);
    UniqueOfNone(col);
    assert Instances(imageRows, []) == Success(([], NOTHING_SEEN));
  }

  /** Every image's document can be built. */
  predicate Buildable(df: seq<Record>, images: seq<Value>) {
    forall i :: 0 <= i < |images| ==> ImageAnnotation(ImageRowsOf(df, images[i])).Success?
  }

  /** Every image gets its document, in order, exactly when none of them raises. */
  lemma DocumentsExact(df: seq<Record>, images: seq<Value>)
    ensures Documents(df, images).Success? <==> Buildable(df, images)
    ensures Documents(df, images).Success? ==> |Documents(df, images).value| == |images|
    ensures Documents(df, images).Success? ==> forall i :: 0 <= i < |images| ==>
      Documents(df, images).value[i] == (images[i], ImageAnnotation(ImageRowsOf(df, images[i])).value)
  {
    EachExact(DocumentsOf(df), images);
  }

  /** The rows of an image are the frame's rows with that name, in their order. */
  lemma ImageRowsOfExact(df: seq<Record>, image: Value)
    ensures forall r :: r in ImageRowsOf(df, image) <==> r in df && r.imageName == image
  {
    WhereExact(df, (q: Record) => q.imageName == image);
  }

  /**
   * `df_to_annotations` writes one document per distinct image name, in the
   * order the names first occur, and succeeds exactly when every image's
   * document can be built; the classes file does not depend on the images.
   */
  lemma AnnotationsExact(df: seq<Record>)
    ensures var images := Unique(Column(df, ImageName));
      && (Annotations(df).Success? <==> Buildable(df, images))
      && (Annotations(df).Success? ==>
            && |Annotations(df).value.documents| == |images|
            && (forall i :: 0 <= i < |images| ==>
                  Annotations(df).value.documents[i] == (images[i], ImageAnnotation(ImageRowsOf(df, images[i])).value))
            && Annotations(df).value.classes == Classes(df))
  {
    var images := Unique(Column(df, ImageName));
    DocumentsExact(df, images);
    if Documents(df, images).Success? {
      assert Annotations(df) == Success(Output(Documents(df, images).value, Classes(df)));
    }
  }
}

/**
 * The records `aggregate_image_annotations_as_df` makes of an export, as
 * functions of the already-parsed export: the class tables built from
 * classes.json, the records of one image's annotation file (comments, tags,
 * one record per instance and valid attribute), the per-file instance
 * counter, and the back-fill of classes and attributes without annotations.
 * The Aggregator module's method builds the table and is proved to store
 * exactly these records.
 */
module Aggregation {
  import opened Values
  import opened Strings
  import opened Table

  const VECTOR_POSTFIX: string := "___objects.json"
  const PIXEL_POSTFIX: string := "___pixel.json"

  /** One entry of classes/classes.json. */
  datatype AttributeGroup = AttributeGroup(name: string, attributes: seq<string>)
  datatype ClassMeta = ClassMeta(name: string, color: Value, attributeGroups: seq<AttributeGroup>)

  /**
   * `class_name_to_color[name]` and `class_group_name_to_values[name]`, kept
   * together: both dicts are written for every class, so they share their keys.
   */
  datatype ClassEntry = ClassEntry(color: Value, groups: map<string, seq<string>>)

  /** One annotation file found under the export root, already parsed. */
  datatype ExportFile = ExportFile(
    name: string,             // the file name
    parent: Option<string>,   // the name of its directory, None when it lies directly in the root
    doc: Value)               // the parsed JSON document

  /** What is read from the export root. */
  datatype ExportRoot = ExportRoot(
    rootJsonNames: seq<string>,          // names of the *.json files directly in the root, in glob order
    treeNames: seq<string>,              // names of every entry anywhere under the root
    classes: Option<seq<ClassMeta>>,     // classes/classes.json, None when it is absent
    files: seq<ExportFile>)              // the annotation files found, in discovery order

  datatype Options = Options(includeClassesWoAnnotations: bool, includeComments: bool, includeTags: bool)

  /** What every file of one pass shares. */
  datatype Context = Context(classes: map<string, ClassEntry>, postfix: string, options: Options)

  /** Image-level metadata attached to every record of an image. */
  datatype ImageInfo = ImageInfo(
    name: string, height: Value, width: Value, status: Value, pinned: Value, annotator: Value, qa: Value)

  /** Creation and update actors of an instance or comment. */
  datatype Actors = Actors(
    createdAt: Value, creatorRole: Value, creatorEmail: Value, creationType: Value,
    updatedAt: Value, updatorRole: Value, updatorEmail: Value)

  /** The instance records of one file and the next free instance id. */
  datatype Pass = Pass(records: seq<Record>, nextId: nat)

  // ---------------------------------------------------------------- class tables

  /** The attribute lists of one class's groups; a repeated group name keeps its last entry. */
  function GroupTable(groups: seq<AttributeGroup>): (t: map<string, seq<string>>)
    ensures forall g :: g in t <==> exists j :: 0 <= j < |groups| && groups[j].name == g
  {
    if groups == [] then map[]
    else
      var last := groups[|groups| - 1];
      var t := GroupTable(groups[..|groups| - 1]);
      assert forall j :: 0 <= j < |groups| - 1 ==> groups[..|groups| - 1][j] == groups[j];
      t[last.name := last.attributes]
  }

  /** A group name maps to the attribute list of the last group with that name. */
  lemma {:induction false} GroupTableLast(groups: seq<AttributeGroup>, j: int)
    requires 0 <= j < |groups| && LastGroup(groups, j)
    ensures groups[j].name in GroupTable(groups)
    ensures GroupTable(groups)[groups[j].name] == groups[j].attributes
  {
    if j < |groups| - 1 {
      var front := groups[..|groups| - 1];
      assert front[j] == groups[j];
      assert groups[|groups| - 1].name != groups[j].name;
      assert LastGroup(front, j) by {
        forall k | j < k < |front| ensures front[k].name != front[j].name {
          assert front[k] == groups[k];
        }
      }
      GroupTableLast(front, j);
    }
  }

  /** `groups[j]` is the last group with its name. */
  predicate LastGroup(groups: seq<AttributeGroup>, j: int)
    requires 0 <= j < |groups|
  {
    forall k :: j < k < |groups| ==> groups[k].name != groups[j].name
  }

  /** The class tables of classes.json; a repeated class name keeps its last entry. */
  function ClassTables(classes: seq<ClassMeta>): (t: map<string, ClassEntry>)
    ensures forall n :: n in t <==> exists j :: 0 <= j < |classes| && classes[j].name == n
  {
    if classes == [] then map[]
    else
      var last := classes[|classes| - 1];
      var t := ClassTables(classes[..|classes| - 1]);
      assert forall j :: 0 <= j < |classes| - 1 ==> classes[..|classes| - 1][j] == classes[j];
      t[last.name := ClassEntry(last.color, GroupTable(last.attributeGroups))]
  }

  /** A class name maps to the colour and group table of the last entry with that name. */
  lemma {:induction false} ClassTablesLast(classes: seq<ClassMeta>, j: int)
    requires 0 <= j < |classes| && LastClass(classes, j)
    ensures classes[j].name in ClassTables(classes)
    ensures ClassTables(classes)[classes[j].name] == ClassEntry(classes[j].color, GroupTable(classes[j].attributeGroups))
  {
    if j < |classes| - 1 {
      var front := classes[..|classes| - 1];
      assert front[j] == classes[j];
      assert classes[|classes| - 1].name != classes[j].name;
      assert LastClass(front, j) by {
        forall k | j < k < |front| ensures front[k].name != front[j].name {
          assert front[k] == classes[k];
        }
      }
      ClassTablesLast(front, j);
    }
  }

  /** `classes[j]` is the last entry of classes.json with its name. */
  predicate LastClass(classes: seq<ClassMeta>, j: int)
    requires 0 <= j < |classes|
  {
    forall k :: j < k < |classes| ==> classes[k].name != classes[j].name
  }

  // ---------------------------------------------------------------- metadata

  /** `__get_image_metadata`: `annotations["metadata"]` must be a dict. */
  function ImageMetadata(imageName: string, doc: map<string, Value>): (r: Result<ImageInfo>)
    ensures r.Failure? <==> "metadata" !in doc || !doc["metadata"].Dict?
    ensures r.Failure? ==> r.error == Malformed
    ensures r.Success? ==> r.value.name == imageName
    ensures r.Success? ==> var m := doc["metadata"].fields;
      && r.value.height == Get(m, "height") && r.value.width == Get(m, "width")
      && r.value.status == Get(m, "status") && r.value.pinned == Get(m, "pinned")
      && r.value.annotator == Get(m, "annotatorEmail") && r.value.qa == Get(m, "qaEmail")
  {
    if "metadata" !in doc || !doc["metadata"].Dict? then Failure(Malformed)
    else
      var m := doc["metadata"].fields;
      Success(ImageInfo(imageName, Get(m, "height"), Get(m, "width"), Get(m, "status"),
                        Get(m, "pinned"), Get(m, "annotatorEmail"), Get(m, "qaEmail")))
  }

  /** `createdBy.get(key)` when `createdBy` is truthy, else None. */
  function ActorField(actor: Value, key: string): Value {
    if Truthy(actor) && actor.Dict? then Get(actor.fields, key) else Null
  }

  /** `__get_user_metadata`: a truthy actor block that is not a dict raises. */
  function UserMetadata(obj: map<string, Value>): (r: Result<Actors>)
    ensures r.Failure? <==> var cb, ub := Get(obj, "createdBy"), Get(obj, "updatedBy");
      (Truthy(cb) && !cb.Dict?) || (Truthy(ub) && !ub.Dict?)
    ensures r.Failure? ==> r.error == Malformed
    ensures r.Success? ==>
      && r.value.createdAt == ToDatetime(Get(obj, "createdAt"))
      && r.value.updatedAt == ToDatetime(Get(obj, "updatedAt"))
      && r.value.creationType == Get(obj, "creationType")
    ensures r.Success? ==> !Truthy(Get(obj, "createdBy")) ==> r.value.creatorEmail == Null && r.value.creatorRole == Null
    ensures r.Success? ==> !Truthy(Get(obj, "updatedBy")) ==> r.value.updatorEmail == Null && r.value.updatorRole == Null
    ensures r.Success? ==> Truthy(Get(obj, "createdBy")) ==> var cb := Get(obj, "createdBy").fields;
      r.value.creatorEmail == Get(cb, "email") && r.value.creatorRole == Get(cb, "role")
    ensures r.Success? ==> Truthy(Get(obj, "updatedBy")) ==> var ub := Get(obj, "updatedBy").fields;
      r.value.updatorEmail == Get(ub, "email") && r.value.updatorRole == Get(ub, "role")
  {
    var createdBy := Get(obj, "createdBy");
    var updatedBy := Get(obj, "updatedBy");
    if (Truthy(createdBy) && !createdBy.Dict?) || (Truthy(updatedBy) && !updatedBy.Dict?) then
      Failure(Malformed)
    else
      Success(Actors(
        ToDatetime(Get(obj, "createdAt")), ActorField(createdBy, "role"), ActorField(createdBy, "email"),
        Get(obj, "creationType"),
        ToDatetime(Get(obj, "updatedAt")), ActorField(updatedBy, "role"), ActorField(updatedBy, "email")))
  }

  /** `annotation_dict.update(image_metadata)`. */
  function WithImage(r: Record, im: ImageInfo): Record {
    r.(imageName := Str(im.name), imageHeight := im.height, imageWidth := im.width,
       imageStatus := im.status, imagePinned := im.pinned, imageAnnotator := im.annotator, imageQA := im.qa)
  }

  /** `annotation_dict.update(user_metadata)`. */
  function WithActors(r: Record, a: Actors): Record {
    r.(createdAt := a.createdAt, creatorRole := a.creatorRole, creatorEmail := a.creatorEmail,
       creationType := a.creationType, updatedAt := a.updatedAt, updatorRole := a.updatorRole,
       updatorEmail := a.updatorEmail)
  }

  // ---------------------------------------------------------------- comments and tags

  /** The record of one comment: `resolved`, `x`, `y` and `correspondence` are read with `[]`. */
  function CommentRecord(c: Value, im: ImageInfo): (r: Result<Record>)
    ensures r.Failure? ==> r.error == Malformed
    ensures r.Success? ==> var rec := r.value;
      rec.annotationType == Str("comment") && rec.imageName == Str(im.name)
      && rec.instanceId == Null && rec.folderName == Null && rec.tag == Null
  {
    if !c.Dict? then Failure(Malformed)
    else
      var m := c.fields;
      if !("resolved" in m && "x" in m && "y" in m && "correspondence" in m) then Failure(Malformed)
      else
        var actors :- UserMetadata(m);
        var meta := Dict(map["x" := m["x"], "y" := m["y"], "comments" := m["correspondence"]]);
        Success(WithImage(WithActors(
          EMPTY.(annotationType := Str("comment"), meta := meta, commentResolved := m["resolved"]), actors), im))
  }

  /** The comment records of one image, one per comment, in order. */
  function CommentRecords(cs: seq<Value>, im: ImageInfo): (r: Result<seq<Record>>)
    ensures r.Failure? <==> exists i :: 0 <= i < |cs| && CommentRecord(cs[i], im).Failure?
    ensures r.Failure? ==> r.error == Malformed
    ensures r.Success? ==> |r.value| == |cs|
    ensures r.Success? ==> forall i :: 0 <= i < |cs| ==> r.value[i] == CommentRecord(cs[i], im).value
    ensures r.Success? ==> forall rec :: rec in r.value ==>
      rec.annotationType == Str("comment") && rec.imageName == Str(im.name)
      && rec.instanceId == Null && rec.folderName == Null && rec.tag == Null
  {
    if cs == [] then Success([])
    else
      assert forall i :: 0 <= i < |cs| - 1 ==> cs[..|cs| - 1][i] == cs[i];
      var prev :- CommentRecords(cs[..|cs| - 1], im);
      var r :- CommentRecord(cs[|cs| - 1], im);
      Success(prev + [r])
  }

  function TagRecord(t: Value, im: ImageInfo): Record {
    WithImage(EMPTY.(annotationType := Str("tag"), tag := t), im)
  }

  /** The tag records of one image, one per tag, in order. */
  function TagRecords(ts: seq<Value>, im: ImageInfo): (r: seq<Record>)
    ensures |r| == |ts|
    ensures forall i :: 0 <= i < |ts| ==>
      r[i].tag == ts[i] && r[i].annotationType == Str("tag") && r[i].imageName == Str(im.name)
      && r[i].instanceId == Null && r[i].commentResolved == Null
  {
    if ts == [] then [] else TagRecords(ts[..|ts| - 1], im) + [TagRecord(ts[|ts| - 1], im)]
  }

  // ---------------------------------------------------------------- instances

  /** The type of an instance: `annotation.get("type", "mask")`. */
  function InstanceType(inst: map<string, Value>): Value {
    if "type" in inst then inst["type"] else Str("mask")
  }

  /** The geometry keys each instance type carries (lines 355-373); other types carry none. */
  function GeometryKeys(t: Value): seq<string> {
    if t == Str("bbox") || t == Str("polygon") || t == Str("polyline") || t == Str("cuboid") then ["points"]
    else if t == Str("point") then ["x", "y"]
    else if t == Str("ellipse") then ["cx", "cy", "rx", "ry", "angle"]
    else if t == Str("mask") then ["parts"]
    else if t == Str("template") then ["connections", "points"]
    else []
  }

  /** The `meta` cell: the type's geometry fields, read with `[]`; None for other types. */
  function GeometryMeta(t: Value, inst: map<string, Value>): (r: Result<Value>)
    ensures r.Success? && GeometryKeys(t) != [] ==>
      && r.value.Dict? && r.value.fields.Keys == (set k | k in GeometryKeys(t))
      && forall k :: k in GeometryKeys(t) ==> k in inst && r.value.fields[k] == inst[k]
    ensures GeometryKeys(t) == [] ==> r == Success(Null)
    ensures r.Failure? <==> exists k :: k in GeometryKeys(t) && k !in inst
    ensures r.Failure? ==> r.error == Malformed
  {
    var keys := GeometryKeys(t);
    if keys == [] then Success(Null)
    else if forall k :: k in keys ==> k in inst then Success(Dict(map k | k in keys :: inst[k]))
    else Failure(Malformed)
  }

  /** The fields every record of one instance shares. */
  function InstanceBase(imageName: string, id: nat, className: string, t: Value, inst: map<string, Value>,
                        meta: Value, color: Value, folder: Value): Record
  {
    EMPTY.(imageName := Str(imageName), instanceId := Int(id), className := Str(className),
           annotationType := t, locked := Get(inst, "locked"), visible := Get(inst, "visible"),
           trackingId := Get(inst, "trackingId"), meta := meta, error := Get(inst, "error"),
           probability := Get(inst, "probability"), pointLabels := Get(inst, "pointLabels"),
           classColor := color, groupId := Get(inst, "groupId"), folderName := folder)
  }

  /** An attribute the class tables accept: its group belongs to the class and its name to the group. */
  predicate ValidAttribute(groups: map<string, seq<string>>, x: Value) {
    && x.Dict?
    && Get(x.fields, "groupName").Str? && Get(x.fields, "groupName").s in groups
    && Get(x.fields, "name").Str? && Get(x.fields, "name").s in groups[Get(x.fields, "groupName").s]
  }

  /** An attribute the loop cannot look up: not a dict, or a group name that is no dict key. */
  predicate BadAttribute(x: Value) {
    !x.Dict? || Unhashable(Get(x.fields, "groupName"))
  }

  /** The record of an instance with one of its attributes. */
  function AttributeRecord(base: Record, x: Value): Record
    requires x.Dict?
  {
    base.(attributeGroupName := Get(x.fields, "groupName"), attributeName := Get(x.fields, "name"))
  }

  /** One record per valid attribute, in order; attributes of unknown groups or names are skipped. */
  function AttributeRecords(groups: map<string, seq<string>>, items: seq<Value>, base: Record)
    : (r: Result<seq<Record>>)
    ensures r.Failure? ==> r.error == Malformed
  {
    if items == [] then Success([])
    else
      var prev :- AttributeRecords(groups, items[..|items| - 1], base);
      var x := items[|items| - 1];
      if BadAttribute(x) then Failure(Malformed)
      else if !ValidAttribute(groups, x) then Success(prev)
      else Success(prev + [AttributeRecord(base, x)])
  }

  /** The attributes the class tables accept, in their order. */
  function ValidItems(groups: map<string, seq<string>>, items: seq<Value>): (v: seq<Value>)
    ensures |v| <= |items|
    ensures forall i :: 0 <= i < |v| ==> ValidAttribute(groups, v[i])
    ensures forall x :: x in v <==> x in items && ValidAttribute(groups, x)
  {
    if items == [] then []
    else
      var front := ValidItems(groups, items[..|items| - 1]);
      assert forall x :: x in items <==> x in items[..|items| - 1] || x == items[|items| - 1];
      if ValidAttribute(groups, items[|items| - 1]) then front + [items[|items| - 1]] else front
  }

  /**
   * The attributes loop fails exactly when some attribute cannot be looked
   * up, and otherwise emits one record per valid attribute, in order.
   */
  lemma {:induction false} AttributeRecordsFilter(groups: map<string, seq<string>>, items: seq<Value>, base: Record)
    ensures var r := AttributeRecords(groups, items, base);
      r.Failure? <==> exists i :: 0 <= i < |items| && BadAttribute(items[i])
    ensures var r := AttributeRecords(groups, items, base);
      r.Success? ==> var v := ValidItems(groups, items);
        |r.value| == |v| && forall i :: 0 <= i < |v| ==> r.value[i] == AttributeRecord(base, v[i])
    ensures var r := AttributeRecords(groups, items, base);
      r.Success? ==> forall rec :: rec in r.value ==>
        exists i :: 0 <= i < |items| && ValidAttribute(groups, items[i]) && rec == AttributeRecord(base, items[i])
    ensures var r := AttributeRecords(groups, items, base);
      r.Success? ==> forall i :: 0 <= i < |items| && ValidAttribute(groups, items[i]) ==>
        AttributeRecord(base, items[i]) in r.value
  {
    if items != [] {
      var front := items[..|items| - 1];
      assert forall i :: 0 <= i < |front| ==> front[i] == items[i];
      AttributeRecordsFilter(groups, front, base);
    }
  }

  /** The class an instance names, when the class tables know it. */
  predicate KnownClass(classes: map<string, ClassEntry>, inst: map<string, Value>) {
    Get(inst, "className").Str? && Get(inst, "className").s in classes
  }

  /** The fields every record of one instance has, whatever its attributes. */
  predicate OfInstance(ctx: Context, rec: Record, imageName: string, folder: Value, inst: map<string, Value>, id: nat)
    requires KnownClass(ctx.classes, inst)
  {
    && rec.imageName == Str(imageName)
    && rec.instanceId == Int(id)
    && rec.className == Get(inst, "className")
    && rec.classColor == ctx.classes[Get(inst, "className").s].color
    && rec.annotationType == InstanceType(inst)
    && rec.folderName == folder
    && rec.commentResolved == Null && rec.tag == Null
  }

  /**
   * The records of one instance, all with instance id `id`: none for an
   * unknown class, one with no attribute when it has no attributes, otherwise
   * one per valid attribute.
   */
  function InstanceRecords(ctx: Context, imageName: string, folder: Value, im: ImageInfo, a: Value, id: nat)
    : (r: Result<seq<Record>>)
    ensures r.Failure? ==> r.error == Malformed
  {
    if !a.Dict? then Failure(Malformed)
    else
      var inst := a.fields;
      var className := Get(inst, "className");
      if Unhashable(className) then Failure(Malformed)
      else if !KnownClass(ctx.classes, inst) then Success([])
      else
        var entry := ctx.classes[className.s];
        var t := InstanceType(inst);
        var meta :- GeometryMeta(t, inst);
        var actors :- UserMetadata(inst);
        var base := WithImage(WithActors(InstanceBase(imageName, id, className.s, t, inst, meta, entry.color, folder), actors), im);
        var attributes := Get(inst, "attributes");
        if !Truthy(attributes) then Success([base])
        else
          match Elements(attributes)
          case None => Failure(Malformed)
          case Some(items) => AttributeRecords(entry.groups, items, base)
  }

  /** Instance ids start at 0 and step by 0 or 1, the last one being `next - 1`. */
  ghost predicate Numbered(records: seq<Record>, next: nat) {
    && (records == [] <==> next == 0)
    && (forall i :: 0 <= i < |records| ==> records[i].instanceId.Int? && 0 <= records[i].instanceId.i < next)
    && (records != [] ==> records[0].instanceId == Int(0) && records[|records| - 1].instanceId == Int(next - 1))
    && (forall i :: 0 < i < |records| ==>
          records[i].instanceId.i == records[i - 1].instanceId.i
          || records[i].instanceId.i == records[i - 1].instanceId.i + 1)
  }

  /**
   * The instance loop of one file: the counter starts at 0 and advances past
   * an instance only when that instance emitted a record.
   */
  function InstancesPass(ctx: Context, imageName: string, folder: Value, im: ImageInfo, insts: seq<Value>)
    : (r: Result<Pass>)
    requires im.name == imageName
    ensures r.Failure? ==> r.error == Malformed
  {
    if insts == [] then Success(Pass([], 0))
    else
      var prev :- InstancesPass(ctx, imageName, folder, im, insts[..|insts| - 1]);
      var own :- InstanceRecords(ctx, imageName, folder, im, insts[|insts| - 1], prev.nextId);
      Success(Pass(prev.records + own, if |own| > 0 then prev.nextId + 1 else prev.nextId))
  }

  /** An instance fails on a non-dict or an unhashable class name, and contributes nothing for an unknown class. */
  lemma InstanceRecordsSkip(ctx: Context, imageName: string, folder: Value, im: ImageInfo, a: Value, id: nat)
    ensures var r := InstanceRecords(ctx, imageName, folder, im, a, id);
      !a.Dict? || Unhashable(Get(a.fields, "className")) ==> r.Failure?
    ensures var r := InstanceRecords(ctx, imageName, folder, im, a, id);
      a.Dict? && !Unhashable(Get(a.fields, "className")) && !KnownClass(ctx.classes, a.fields) ==> r == Success([])
    ensures var r := InstanceRecords(ctx, imageName, folder, im, a, id);
      r.Success? && r.value != [] ==> a.Dict? && KnownClass(ctx.classes, a.fields)
  {
  }

  /**
   * Every record of an instance carries its id, class, class color, type
   * (`mask` when the instance has none) and folder.
   */
  lemma InstanceRecordsOf(ctx: Context, imageName: string, folder: Value, im: ImageInfo, a: Value, id: nat)
    requires im.name == imageName
    ensures var r := InstanceRecords(ctx, imageName, folder, im, a, id);
      r.Success? && r.value != [] ==>
        && a.Dict? && KnownClass(ctx.classes, a.fields)
        && (forall rec :: rec in r.value ==> OfInstance(ctx, rec, imageName, folder, a.fields, id))
        && ("type" !in a.fields ==> forall rec :: rec in r.value ==> rec.annotationType == Str("mask"))
  {
    var r := InstanceRecords(ctx, imageName, folder, im, a, id);
    if r.Success? && r.value != [] && Truthy(Get(a.fields, "attributes")) {
      var items := Elements(Get(a.fields, "attributes")).value;
      var entry := ctx.classes[Get(a.fields, "className").s];
      var t := InstanceType(a.fields);
      var base := WithImage(WithActors(InstanceBase(imageName, id, Get(a.fields, "className").s, t, a.fields,
                                                    GeometryMeta(t, a.fields).value, entry.color, folder),
                                       UserMetadata(a.fields).value), im);
      AttributeRecordsFilter(entry.groups, items, base);
    }
  }

  /**
   * An instance of a known class without attributes gives one record with no
   * attribute; one with attributes gives one record per attribute its class
   * declares, in the order of the attributes, and only for those.
   */
  lemma InstanceRecordsAttributes(ctx: Context, imageName: string, folder: Value, im: ImageInfo, a: Value, id: nat)
    requires a.Dict? && KnownClass(ctx.classes, a.fields)
    requires InstanceRecords(ctx, imageName, folder, im, a, id).Success?
    ensures var r := InstanceRecords(ctx, imageName, folder, im, a, id).value;
      !Truthy(Get(a.fields, "attributes")) ==>
        |r| == 1 && r[0].attributeGroupName == Null && r[0].attributeName == Null
    ensures var r := InstanceRecords(ctx, imageName, folder, im, a, id).value;
      var groups := ctx.classes[Get(a.fields, "className").s].groups;
      Truthy(Get(a.fields, "attributes")) ==>
        && (forall rec :: rec in r ==>
              rec.attributeGroupName.Str? && rec.attributeGroupName.s in groups
              && rec.attributeName.Str? && rec.attributeName.s in groups[rec.attributeGroupName.s])
        && Elements(Get(a.fields, "attributes")).Some?
        && var v := ValidItems(groups, Elements(Get(a.fields, "attributes")).value);
           && |r| == |v|
           && forall i :: 0 <= i < |v| ==>
                r[i].attributeGroupName == Get(v[i].fields, "groupName") && r[i].attributeName == Get(v[i].fields, "name")
  {
    if Truthy(Get(a.fields, "attributes")) {
      var items := Elements(Get(a.fields, "attributes")).value;
      var entry := ctx.classes[Get(a.fields, "className").s];
      var t := InstanceType(a.fields);
      var base := WithImage(WithActors(InstanceBase(imageName, id, Get(a.fields, "className").s, t, a.fields,
                                                    GeometryMeta(t, a.fields).value, entry.color, folder),
                                       UserMetadata(a.fields).value), im);
      AttributeRecordsFilter(entry.groups, items, base);
    }
  }

  /** Appending the records of one more instance, all with the next id, keeps the ids consecutive. */
  lemma NumberedExtend(records: seq<Record>, next: nat, own: seq<Record>)
    requires Numbered(records, next)
    requires forall rec :: rec in own ==> rec.instanceId == Int(next)
    ensures Numbered(records + own, if |own| > 0 then next + 1 else next)
  {
    forall i | 0 <= i < |own| ensures own[i].instanceId == Int(next) {
      assert own[i] in own;
    }
  }

  /** The ids the instance loop hands out are consecutive from 0, one per instance that emitted a record. */
  lemma {:induction false} InstancesPassNumbered(ctx: Context, imageName: string, folder: Value, im: ImageInfo,
                                                 insts: seq<Value>)
    requires im.name == imageName
    requires InstancesPass(ctx, imageName, folder, im, insts).Success?
    ensures var p := InstancesPass(ctx, imageName, folder, im, insts).value;
      Numbered(p.records, p.nextId) && p.nextId <= |insts|
  {
    if insts != [] {
      var front := insts[..|insts| - 1];
      InstancesPassNumbered(ctx, imageName, folder, im, front);
      var prev := InstancesPass(ctx, imageName, folder, im, front).value;
      InstanceRecordsOf(ctx, imageName, folder, im, insts[|insts| - 1], prev.nextId);
      var r := InstanceRecords(ctx, imageName, folder, im, insts[|insts| - 1], prev.nextId);
      NumberedExtend(prev.records, prev.nextId, r.value);
    }
  }

  /** The records of the instance loop are those of known classes, with their colors, in this file's image and folder. */
  lemma {:induction false} InstancesPassRows(ctx: Context, imageName: string, folder: Value, im: ImageInfo,
                                             insts: seq<Value>)
    requires im.name == imageName
    requires InstancesPass(ctx, imageName, folder, im, insts).Success?
    ensures forall rec :: rec in InstancesPass(ctx, imageName, folder, im, insts).value.records ==>
      rec.imageName == Str(imageName) && rec.folderName == folder
      && rec.className.Str? && rec.className.s in ctx.classes
      && rec.classColor == ctx.classes[rec.className.s].color
      && rec.commentResolved == Null && rec.tag == Null
  {
    if insts != [] {
      var front := insts[..|insts| - 1];
      InstancesPassRows(ctx, imageName, folder, im, front);
      var prev := InstancesPass(ctx, imageName, folder, im, front).value;
      InstanceRecordsOf(ctx, imageName, folder, im, insts[|insts| - 1], prev.nextId);
    }
  }

  /** Whether an instance emits a record; which id it would get makes no difference (`InstanceRecordsIdFree`). */
  predicate Emits(ctx: Context, imageName: string, folder: Value, im: ImageInfo, a: Value) {
    var r := InstanceRecords(ctx, imageName, folder, im, a, 0);
    r.Success? && r.value != []
  }

  /** The number of instances of `insts` that emit a record. */
  function Emitting(ctx: Context, imageName: string, folder: Value, im: ImageInfo, insts: seq<Value>): (n: nat)
    ensures n <= |insts|
  {
    if insts == [] then 0
    else
      Emitting(ctx, imageName, folder, im, insts[..|insts| - 1])
      + (if Emits(ctx, imageName, folder, im, insts[|insts| - 1]) then 1 else 0)
  }

  /** Whether an instance fails, and how many records it gives, does not depend on its id. */
  lemma InstanceRecordsIdFree(ctx: Context, imageName: string, folder: Value, im: ImageInfo, a: Value, id: nat)
    ensures var r, r0 := InstanceRecords(ctx, imageName, folder, im, a, id), InstanceRecords(ctx, imageName, folder, im, a, 0);
      r.Success? == r0.Success? && (r.Success? ==> |r.value| == |r0.value|)
  {
    if a.Dict? && !Unhashable(Get(a.fields, "className")) && KnownClass(ctx.classes, a.fields) {
      var t := InstanceType(a.fields);
      if GeometryMeta(t, a.fields).Success? && UserMetadata(a.fields).Success?
         && Truthy(Get(a.fields, "attributes")) && Elements(Get(a.fields, "attributes")).Some? {
        var items := Elements(Get(a.fields, "attributes")).value;
        var className := Get(a.fields, "className").s;
        var entry := ctx.classes[className];
        var base := WithImage(WithActors(InstanceBase(imageName, id, className, t, a.fields,
                                                      GeometryMeta(t, a.fields).value, entry.color, folder),
                                         UserMetadata(a.fields).value), im);
        var base0 := WithImage(WithActors(InstanceBase(imageName, 0, className, t, a.fields,
                                                       GeometryMeta(t, a.fields).value, entry.color, folder),
                                          UserMetadata(a.fields).value), im);
        AttributeRecordsFilter(entry.groups, items, base);
        AttributeRecordsFilter(entry.groups, items, base0);
      }
    }
  }

  /** The records an instance emits with id `id`; none when it fails. */
  function Block(ctx: Context, imageName: string, folder: Value, im: ImageInfo, a: Value, id: nat): seq<Record> {
    var r := InstanceRecords(ctx, imageName, folder, im, a, id);
    if r.Success? then r.value else []
  }

  /** `g` of each element of `s` and the elements before it. */
  function PrefixMap<X>(g: (Value, seq<Value>) -> X, s: seq<Value>): (r: seq<X>)
    ensures |r| == |s|
  {
    seq(|s|, i requires 0 <= i < |s| => g(s[i], s[..i]))
  }

  /** One more element adds one entry, and leaves the earlier ones as they were. */
  lemma PrefixMapSnoc<X>(g: (Value, seq<Value>) -> X, s: seq<Value>)
    requires s != []
    ensures PrefixMap(g, s) == PrefixMap(g, s[..|s| - 1]) + [g(s[|s| - 1], s[..|s| - 1])]
  {
    var front := s[..|s| - 1];
    forall i | 0 <= i < |front| ensures front[..i] == s[..i] && front[i] == s[i] {
    }
  }

  /** A property of each element and the elements before it extends from a prefix to the next element. */
  lemma PrefixAllSnoc(p: (Value, seq<Value>) -> bool, s: seq<Value>, front: seq<Value>)
    requires s != [] && front == s[..|s| - 1]
    requires forall i :: 0 <= i < |front| ==> p(front[i], front[..i])
    requires p(s[|s| - 1], front)
    ensures forall i :: 0 <= i < |s| ==> p(s[i], s[..i])
  {
    forall i | 0 <= i < |front| ensures p(s[i], s[..i]) {
      assert front[..i] == s[..i] && front[i] == s[i];
    }
  }

  /** Every instance's records in order, instance `i` numbered with the count of emitting instances before it. */
  function Blocks(ctx: Context, imageName: string, folder: Value, im: ImageInfo, insts: seq<Value>)
    : (b: seq<seq<Record>>)
    ensures |b| == |insts|
  {
    PrefixMap((a, pre) => Block(ctx, imageName, folder, im, a, Emitting(ctx, imageName, folder, im, pre)), insts)
  }

  /** The blocks laid end to end. */
  function Flatten(blocks: seq<seq<Record>>): (r: seq<Record>)
    ensures forall b :: b in blocks ==> forall rec :: rec in b ==> rec in r
  {
    if blocks == [] then []
    else
      var front := blocks[..|blocks| - 1];
      assert forall b :: b in blocks ==> b in front || b == blocks[|blocks| - 1];
      Flatten(front) + blocks[|blocks| - 1]
  }

  /** One more instance adds one block, and leaves the earlier ones as they were. */
  lemma BlocksSnoc(ctx: Context, imageName: string, folder: Value, im: ImageInfo, insts: seq<Value>)
    requires insts != []
    ensures var n := |insts| - 1;
      Blocks(ctx, imageName, folder, im, insts)
      == Blocks(ctx, imageName, folder, im, insts[..n])
         + [Block(ctx, imageName, folder, im, insts[n], Emitting(ctx, imageName, folder, im, insts[..n]))]
  {
    PrefixMapSnoc((a, pre) => Block(ctx, imageName, folder, im, a, Emitting(ctx, imageName, folder, im, pre)), insts);
  }

  /**
   * The instance loop's counter ends at the number of instances that emitted
   * a record: it advances past exactly those.
   */
  lemma {:induction false} InstancesPassCount(ctx: Context, imageName: string, folder: Value, im: ImageInfo,
                                              insts: seq<Value>)
    requires im.name == imageName
    requires InstancesPass(ctx, imageName, folder, im, insts).Success?
    ensures InstancesPass(ctx, imageName, folder, im, insts).value.nextId == Emitting(ctx, imageName, folder, im, insts)
  {
    if insts != [] {
      var front := insts[..|insts| - 1];
      InstancesPassCount(ctx, imageName, folder, im, front);
      var prev := InstancesPass(ctx, imageName, folder, im, front).value;
      InstanceRecordsIdFree(ctx, imageName, folder, im, insts[|insts| - 1], prev.nextId);
    }
  }

  /**
   * The instance loop numbers the instances that emit a record 0, 1, 2, ...:
   * each instance succeeds with the count of emitting instances before it as
   * its id, and the loop's records are their records in order.
   */
  lemma {:induction false} InstancesPassBlocks(ctx: Context, imageName: string, folder: Value, im: ImageInfo,
                                               insts: seq<Value>)
    requires im.name == imageName
    requires InstancesPass(ctx, imageName, folder, im, insts).Success?
    ensures forall i :: 0 <= i < |insts| ==>
      InstanceRecords(ctx, imageName, folder, im, insts[i], Emitting(ctx, imageName, folder, im, insts[..i])).Success?
    ensures InstancesPass(ctx, imageName, folder, im, insts).value.records
      == Flatten(Blocks(ctx, imageName, folder, im, insts))
  {
    if insts != [] {
      var n := |insts| - 1;
      var front := insts[..n];
      InstancesPassBlocks(ctx, imageName, folder, im, front);
      InstancesPassCount(ctx, imageName, folder, im, front);
      BlocksSnoc(ctx, imageName, folder, im, insts);
      PrefixAllSnoc((a, pre) =>
        InstanceRecords(ctx, imageName, folder, im, a, Emitting(ctx, imageName, folder, im, pre)).Success?, insts, front);
      var blocks := Blocks(ctx, imageName, folder, im, insts);
      assert blocks[..n] == Blocks(ctx, imageName, folder, im, front);
    }
  }

  /** Every record of instance `i`'s block carries the count of emitting instances before it as its id. */
  lemma BlocksIds(ctx: Context, imageName: string, folder: Value, im: ImageInfo, insts: seq<Value>)
    requires im.name == imageName
    ensures forall i, rec :: 0 <= i < |insts| && rec in Blocks(ctx, imageName, folder, im, insts)[i] ==>
      rec.instanceId == Int(Emitting(ctx, imageName, folder, im, insts[..i]))
  {
    forall i, rec | 0 <= i < |insts| && rec in Blocks(ctx, imageName, folder, im, insts)[i]
      ensures rec.instanceId == Int(Emitting(ctx, imageName, folder, im, insts[..i]))
    {
      InstanceRecordsOf(ctx, imageName, folder, im, insts[i], Emitting(ctx, imageName, folder, im, insts[..i]));
    }
  }

  // ---------------------------------------------------------------- files

  /** The folderName cell of a file's instances. */
  function FolderValue(f: ExportFile): Value {
    match f.parent
    case None => Null
    case Some(n) => Str(n)
  }

  /** `annotation_json[key]` iterated: the key must be there and hold something a loop can visit. */
  function ElementsAt(doc: map<string, Value>, key: string): (r: Result<seq<Value>>)
    ensures r.Failure? ==> r.error == Malformed
    ensures key in doc && doc[key].List? ==> r == Success(doc[key].items)
  {
    if key !in doc then Failure(Malformed)
    else
      match Elements(doc[key])
      case None => Failure(Malformed)
      case Some(items) => Success(items)
  }

  /**
   * What every aggregated record satisfies: an instance record names a class
   * of the class tables and carries its color, and the comment and tag
   * columns stay empty unless they were asked for.
   */
  predicate Row(ctx: Context, rec: Record) {
    && (rec.instanceId != Null ==>
          rec.className.Str? && rec.className.s in ctx.classes && rec.classColor == ctx.classes[rec.className.s].color)
    && (!ctx.options.includeComments ==> rec.commentResolved == Null)
    && (!ctx.options.includeTags ==> rec.tag == Null)
  }

  /** The comment records of one file, when comments are asked for. */
  function FileComments(options: Options, doc: map<string, Value>, im: ImageInfo): (r: Result<seq<Record>>)
    ensures r.Failure? ==> r.error == Malformed
    ensures !options.includeComments ==> r == Success([])
  {
    if options.includeComments then
      var cs :- ElementsAt(doc, "comments");
      CommentRecords(cs, im)
    else Success([])
  }

  /** The tag records of one file, when tags are asked for. */
  function FileTags(options: Options, doc: map<string, Value>, im: ImageInfo): (r: Result<seq<Record>>)
    ensures r.Failure? ==> r.error == Malformed
    ensures !options.includeTags ==> r == Success([])
  {
    if options.includeTags then
      var ts :- ElementsAt(doc, "tags");
      Success(TagRecords(ts, im))
    else Success([])
  }

  /** The records of one parsed annotation file of image `imageName`: its comments, then its tags, then its instances. */
  function DocumentRecords(ctx: Context, imageName: string, folder: Value, doc: map<string, Value>)
    : (r: Result<seq<Record>>)
    ensures r.Failure? ==> r.error == Malformed
  {
    var im :- ImageMetadata(imageName, doc);
    var comments :- FileComments(ctx.options, doc, im);
    var tags :- FileTags(ctx.options, doc, im);
    var insts :- ElementsAt(doc, "instances");
    var pass :- InstancesPass(ctx, imageName, folder, im, insts);
    Success(comments + tags + pass.records)
  }

  /** The records of one annotation file; a file whose name does not split in two around the suffix is skipped. */
  function FileRecords(ctx: Context, f: ExportFile): (r: Result<seq<Record>>)
    requires |ctx.postfix| > 0
    ensures |Split(f.name, ctx.postfix)| != 2 ==> r == Success([])
    ensures r.Failure? ==> r.error == Malformed
  {
    var parts := Split(f.name, ctx.postfix);
    if |parts| != 2 then Success([])
    else if !f.doc.Dict? then Failure(Malformed)
    else DocumentRecords(ctx, parts[0], FolderValue(f), f.doc.fields)
  }

  /** The records of all files, in order. */
  function AllRecords(ctx: Context, files: seq<ExportFile>): (r: Result<seq<Record>>)
    requires |ctx.postfix| > 0
    ensures r.Failure? ==> r.error == Malformed
  {
    if files == [] then Success([])
    else
      var prev :- AllRecords(ctx, files[..|files| - 1]);
      var own :- FileRecords(ctx, files[|files| - 1]);
      Success(prev + own)
  }

  /** Every record of one file belongs to that file's image and keeps the invariant of aggregated rows. */
  lemma FileRecordsRows(ctx: Context, f: ExportFile)
    requires |ctx.postfix| > 0 && FileRecords(ctx, f).Success?
    ensures forall rec :: rec in FileRecords(ctx, f).value ==>
      Row(ctx, rec) && rec.imageName == Str(Split(f.name, ctx.postfix)[0])
  {
    var parts := Split(f.name, ctx.postfix);
    if |parts| == 2 {
      var doc := f.doc.fields;
      var im := ImageMetadata(parts[0], doc).value;
      var insts := ElementsAt(doc, "instances").value;
      InstancesPassRows(ctx, parts[0], FolderValue(f), im, insts);
      assert FileComments(ctx.options, doc, im).Success?;
    }
  }

  /** Every record of the main pass keeps the invariant of aggregated rows. */
  lemma {:induction false} AllRecordsRows(ctx: Context, files: seq<ExportFile>)
    requires |ctx.postfix| > 0 && AllRecords(ctx, files).Success?
    ensures forall rec :: rec in AllRecords(ctx, files).value ==> Row(ctx, rec)
  {
    if files != [] {
      AllRecordsRows(ctx, files[..|files| - 1]);
      FileRecordsRows(ctx, files[|files| - 1]);
    }
  }

  // ---------------------------------------------------------------- back-fill

  predicate HasClass(observed: seq<Record>, name: string) {
    exists i | 0 <= i < |observed| :: observed[i].className == Str(name)
  }

  predicate HasAttribute(observed: seq<Record>, name: string, group: string, attribute: string) {
    exists i | 0 <= i < |observed| ::
      observed[i].className == Str(name) && observed[i].attributeGroupName == Str(group)
      && observed[i].attributeName == Str(attribute)
  }

  /** A record in `observed` with that class is a witness of `HasClass`. */
  lemma HasClassOf(observed: seq<Record>, r: Record, name: string)
    requires r in observed && r.className == Str(name)
    ensures HasClass(observed, name)
  {
    var i :| 0 <= i < |observed| && observed[i] == r;
  }

  /** A record in `observed` with that class, group and attribute is a witness of `HasAttribute`. */
  lemma HasAttributeOf(observed: seq<Record>, r: Record, name: string, group: string, attribute: string)
    requires r in observed && r.className == Str(name) && r.attributeGroupName == Str(group)
    requires r.attributeName == Str(attribute)
    ensures HasAttribute(observed, name, group, attribute)
  {
    var i :| 0 <= i < |observed| && observed[i] == r;
  }

  function ClassRow(c: ClassMeta): Record {
    EMPTY.(className := Str(c.name), classColor := c.color)
  }

  function AttributeRow(c: ClassMeta, group: string, attribute: string): Record {
    EMPTY.(className := Str(c.name), classColor := c.color, attributeGroupName := Str(group),
           attributeName := Str(attribute))
  }

  /** The rows for one group's attributes that no observed record carries. */
  function MissingAttributes(c: ClassMeta, group: string, attributes: seq<string>, observed: seq<Record>)
    : seq<Record>
  {
    if attributes == [] then []
    else
      var a := attributes[|attributes| - 1];
      MissingAttributes(c, group, attributes[..|attributes| - 1], observed)
      + (if HasAttribute(observed, c.name, group, a) then [] else [AttributeRow(c, group, a)])
  }

  /** The missing attribute rows of a list of groups of `c`. */
  function MissingGroups(c: ClassMeta, groups: seq<AttributeGroup>, observed: seq<Record>): seq<Record> {
    if groups == [] then []
    else
      var g := groups[|groups| - 1];
      MissingGroups(c, groups[..|groups| - 1], observed) + MissingAttributes(c, g.name, g.attributes, observed)
  }

  /** The rows for one class: one class row when the class was never seen, else the missing attributes. */
  function MissingOfClass(c: ClassMeta, observed: seq<Record>): seq<Record> {
    if !HasClass(observed, c.name) then [ClassRow(c)] else MissingGroups(c, c.attributeGroups, observed)
  }

  /** `include_classes_wo_annotations`: the rows appended after the main pass, checked against it alone. */
  function Backfill(classes: seq<ClassMeta>, observed: seq<Record>): seq<Record> {
    if classes == [] then []
    else Backfill(classes[..|classes| - 1], observed) + MissingOfClass(classes[|classes| - 1], observed)
  }

  /** A group's missing rows are exactly the rows of its attributes that no observed record carries. */
  lemma {:induction false} MissingAttributesExact(c: ClassMeta, group: string, attributes: seq<string>,
                                                  observed: seq<Record>)
    ensures forall a :: a in attributes && !HasAttribute(observed, c.name, group, a) ==>
      AttributeRow(c, group, a) in MissingAttributes(c, group, attributes, observed)
    ensures forall rec :: rec in MissingAttributes(c, group, attributes, observed) ==>
      exists a :: a in attributes && !HasAttribute(observed, c.name, group, a) && rec == AttributeRow(c, group, a)
  {
    if attributes != [] {
      var front := attributes[..|attributes| - 1];
      assert attributes == front + [attributes[|attributes| - 1]];
      MissingAttributesExact(c, group, front, observed);
    }
  }

  /** A class's missing rows are exactly the rows of its groups' attributes that no observed record carries. */
  lemma {:induction false} MissingGroupsExact(c: ClassMeta, groups: seq<AttributeGroup>, observed: seq<Record>)
    ensures forall g, a :: g in groups && a in g.attributes && !HasAttribute(observed, c.name, g.name, a) ==>
      AttributeRow(c, g.name, a) in MissingGroups(c, groups, observed)
    ensures forall rec :: rec in MissingGroups(c, groups, observed) ==>
      exists g, a :: g in groups && a in g.attributes && !HasAttribute(observed, c.name, g.name, a)
                     && rec == AttributeRow(c, g.name, a)
  {
    if groups != [] {
      var front := groups[..|groups| - 1];
      var g := groups[|groups| - 1];
      assert groups == front + [g];
      MissingGroupsExact(c, front, observed);
      MissingAttributesExact(c, g.name, g.attributes, observed);
    }
  }

  /** A row the back-fill may add for `c`: its class row when unseen, or a row for an unseen attribute. */
  predicate MissingRow(c: ClassMeta, observed: seq<Record>, rec: Record) {
    if !HasClass(observed, c.name) then rec == ClassRow(c)
    else exists g, a :: g in c.attributeGroups && a in g.attributes && !HasAttribute(observed, c.name, g.name, a)
                        && rec == AttributeRow(c, g.name, a)
  }

  /**
   * The back-fill adds the class row of every unseen class, the row of every
   * unseen attribute of a seen class, and nothing else.
   */
  lemma {:induction false} BackfillExact(classes: seq<ClassMeta>, observed: seq<Record>)
    ensures forall c :: c in classes && !HasClass(observed, c.name) ==> ClassRow(c) in Backfill(classes, observed)
    ensures forall c, g, a ::
      (c in classes && g in c.attributeGroups && a in g.attributes
       && HasClass(observed, c.name) && !HasAttribute(observed, c.name, g.name, a)) ==>
      AttributeRow(c, g.name, a) in Backfill(classes, observed)
    ensures forall rec :: rec in Backfill(classes, observed) ==> exists c :: c in classes && MissingRow(c, observed, rec)
  {
    if classes != [] {
      var front := classes[..|classes| - 1];
      var c := classes[|classes| - 1];
      assert classes == front + [c];
      BackfillExact(front, observed);
      MissingGroupsExact(c, c.attributeGroups, observed);
      assert Backfill(classes, observed) == Backfill(front, observed) + MissingOfClass(c, observed);
      forall rec | rec in Backfill(classes, observed)
        ensures exists d :: d in classes && MissingRow(d, observed, rec)
      {
        if rec in Backfill(front, observed) {
          var d :| d in front && MissingRow(d, observed, rec);
          assert d in classes;
        } else {
          assert MissingRow(c, observed, rec);
        }
      }
    }
  }

  // ---------------------------------------------------------------- the whole pass

  /** The first top-level .json name carries neither export suffix: a document or video export. */
  predicate IsDeprecatedExport(root: ExportRoot) {
    |root.rootJsonNames| > 0
    && !Contains(root.rootJsonNames[0], PIXEL_POSTFIX)
    && !Contains(root.rootJsonNames[0], VECTOR_POSTFIX)
  }

  /** The suffix stripped from file names: the vector one when any entry ends with it. */
  function Postfix(root: ExportRoot): (p: string)
    ensures |p| > 0
  {
    if exists n :: n in root.treeNames && EndsWith(n, VECTOR_POSTFIX) then VECTOR_POSTFIX else PIXEL_POSTFIX
  }

  /** The class tables and file suffix of one export. */
  function ContextOf(root: ExportRoot, options: Options): (ctx: Context)
    requires root.classes.Some?
    ensures |ctx.postfix| > 0
    ensures ctx.classes.Keys == set c | c in root.classes.value :: c.name
  {
    Context(ClassTables(root.classes.value), Postfix(root), options)
  }

  /** The records of the aggregated table, or the error the aggregation raises. */
  function Aggregate(root: ExportRoot, options: Options): (r: Result<seq<Record>>)
    ensures IsDeprecatedExport(root) ==> r == Failure(DeprecatedExport)
    ensures !IsDeprecatedExport(root) && root.classes.None? ==> r == Failure(MissingClassesFile)
    ensures r.Failure? && !IsDeprecatedExport(root) && root.classes.Some? ==> r.error == Malformed
  {
    if IsDeprecatedExport(root) then Failure(DeprecatedExport)
    else if root.classes.None? then Failure(MissingClassesFile)
    else
      var ctx := ContextOf(root, options);
      var records :- AllRecords(ctx, root.files);
      Success(if options.includeClassesWoAnnotations then records + Backfill(root.classes.value, records)
              else records)
  }

  /**
   * Every row of the table keeps the invariant of aggregated rows: back-filled
   * rows have no instance id, comment or tag.
   */
  lemma AggregateRows(root: ExportRoot, options: Options)
    requires Aggregate(root, options).Success?
    ensures root.classes.Some?
    ensures forall rec :: rec in Aggregate(root, options).value ==> Row(ContextOf(root, options), rec)
  {
    var ctx := ContextOf(root, options);
    AllRecordsRows(ctx, root.files);
    var main := AllRecords(ctx, root.files).value;
    BackfillExact(root.classes.value, main);
    forall rec | rec in Backfill(root.classes.value, main) ensures Row(ctx, rec) {
      var c :| c in root.classes.value && MissingRow(c, main, rec);
    }
  }

  /**
   * With `include_classes_wo_annotations`, every class of classes.json
   * occurs in the table, and so does every attribute of every class that some
   * annotation used.
   */
  lemma AggregateCoversClasses(root: ExportRoot, options: Options)
    requires options.includeClassesWoAnnotations
    requires !IsDeprecatedExport(root) && root.classes.Some?
    requires AllRecords(ContextOf(root, options), root.files).Success?
    ensures Aggregate(root, options).Success?
    ensures forall c :: c in root.classes.value ==> HasClass(Aggregate(root, options).value, c.name)
    ensures forall c, g, a ::
      (c in root.classes.value && g in c.attributeGroups && a in g.attributes
       && HasClass(AllRecords(ContextOf(root, options), root.files).value, c.name)) ==>
      HasAttribute(Aggregate(root, options).value, c.name, g.name, a)
  {
    var main := AllRecords(ContextOf(root, options), root.files).value;
    var rows := Backfill(root.classes.value, main);
    BackfillExact(root.classes.value, main);
    var all := Aggregate(root, options).value;
    assert all == main + rows;
    forall c | c in root.classes.value ensures HasClass(all, c.name) {
      if !HasClass(main, c.name) {
        assert ClassRow(c) in all;
        HasClassOf(all, ClassRow(c), c.name);
      } else {
        var i :| 0 <= i < |main| && main[i].className == Str(c.name);
        assert all[i] == main[i];
      }
    }
    forall c, g, a | c in root.classes.value && g in c.attributeGroups && a in g.attributes && HasClass(main, c.name)
      ensures HasAttribute(all, c.name, g.name, a)
    {
      if HasAttribute(main, c.name, g.name, a) {
        var i :| 0 <= i < |main| && main[i].className == Str(c.name) && main[i].attributeGroupName == Str(g.name)
                 && main[i].attributeName == Str(a);
        assert all[i] == main[i];
      } else {
        assert AttributeRow(c, g.name, a) in all;
        HasAttributeOf(all, AttributeRow(c, g.name, a), c.name, g.name, a);
      }
    }
  }
}

/**
 * `aggregate_image_annotations_as_df` as the source runs it: loops that fill
 * the class tables and append one row at a time to the column table. Each
 * method is proved to append exactly the records the Aggregation module
 * defines, and to fail exactly when that definition does.
 */
module Aggregator {
  import opened Values
  import opened Strings
  import opened Table
  import opened Aggregation

  /** The loop over classes.json that fills `class_name_to_color` and `class_group_name_to_values`. */
  method BuildClassTables(classes: seq<ClassMeta>) returns (t: map<string, ClassEntry>)
    ensures t == ClassTables(classes)
  {
    t := map[];
    for i := 0 to |classes|
      invariant t == ClassTables(classes[..i])
    {
      var c := classes[i];
      var groups: map<string, seq<string>> := map[];
      for j := 0 to |c.attributeGroups|
        invariant groups == GroupTable(c.attributeGroups[..j])
      {
        var g := c.attributeGroups[j];
        var values: seq<string> := [];
        for k := 0 to |g.attributes|
          invariant values == g.attributes[..k]
        {
          values := values + [g.attributes[k]];
        }
        assert values == g.attributes;
        assert c.attributeGroups[..j + 1][..j] == c.attributeGroups[..j];
        groups := groups[g.name := values];
      }
      assert c.attributeGroups[..|c.attributeGroups|] == c.attributeGroups;
      assert classes[..i + 1][..i] == classes[..i];
      t := t[c.name := ClassEntry(c.color, groups)];
    }
    assert classes[..|classes|] == classes;
  }

  /** The comments loop of one file. */
  method AppendComments(table: AnnotationData, cs: seq<Value>, im: ImageInfo) returns (ok: bool)
    requires table.Valid()
    modifies table
    ensures table.Valid()
    ensures ok <==> CommentRecords(cs, im).Success?
    ensures ok ==> table.records == old(table.records) + CommentRecords(cs, im).value
  {
    for i := 0 to |cs|
      invariant table.Valid()
      invariant CommentRecords(cs[..i], im).Success?
      invariant table.records == old(table.records) + CommentRecords(cs[..i], im).value
    {
      var r := CommentRecord(cs[i], im);
      if r.Failure? {
        CommentsFailAt(cs, i, im);
        return false;
      }
      CommentsStep(cs, i, im);
      table.Append(r.value);
    }
    assert cs[..|cs|] == cs;
    return true;
  }

  /** One more comment extends the records of the comments before it. */
  lemma CommentsStep(cs: seq<Value>, i: nat, im: ImageInfo)
    requires i < |cs| && CommentRecords(cs[..i], im).Success? && CommentRecord(cs[i], im).Success?
    ensures CommentRecords(cs[..i + 1], im)
         == Success(CommentRecords(cs[..i], im).value + [CommentRecord(cs[i], im).value])
  {
    assert cs[..i + 1][..i] == cs[..i];
  }

  /** A failing comment fails the whole list. */
  lemma CommentsFailAt(cs: seq<Value>, i: nat, im: ImageInfo)
    requires i < |cs| && CommentRecord(cs[i], im).Failure?
    ensures CommentRecords(cs, im).Failure?
  {
  }

  /** The tags loop of one file. */
  method AppendTags(table: AnnotationData, ts: seq<Value>, im: ImageInfo)
    requires table.Valid()
    modifies table
    ensures table.Valid()
    ensures table.records == old(table.records) + TagRecords(ts, im)
  {
    for i := 0 to |ts|
      invariant table.Valid()
      invariant table.records == old(table.records) + TagRecords(ts[..i], im)
    {
      assert ts[..i + 1][..i] == ts[..i];
      table.Append(TagRecord(ts[i], im));
    }
    assert ts[..|ts|] == ts;
  }

  /** The attributes loop of one instance; `added` is the source's `num_added`. */
  method AppendAttributes(table: AnnotationData, groups: map<string, seq<string>>, items: seq<Value>, base: Record)
    returns (ok: bool, added: nat)
    requires table.Valid()
    modifies table
    ensures table.Valid()
    ensures ok <==> AttributeRecords(groups, items, base).Success?
    ensures ok ==> table.records == old(table.records) + AttributeRecords(groups, items, base).value
    ensures ok ==> added == |AttributeRecords(groups, items, base).value|
  {
    AttributeRecordsFilter(groups, items, base);
    added := 0;
    for j := 0 to |items|
      invariant table.Valid()
      invariant AttributeRecords(groups, items[..j], base).Success?
      invariant table.records == old(table.records) + AttributeRecords(groups, items[..j], base).value
      invariant added == |AttributeRecords(groups, items[..j], base).value|
    {
      assert items[..j + 1][..j] == items[..j];
      var x := items[j];
      if !x.Dict? || Unhashable(Get(x.fields, "groupName")) {
        assert BadAttribute(items[j]);
        return false, added;
      }
      var group := Get(x.fields, "groupName");
      var name := Get(x.fields, "name");
      if !(group.Str? && group.s in groups) {
        continue;
      }
      if !(name.Str? && name.s in groups[group.s]) {
        continue;
      }
      table.Append(AttributeRecord(base, x));
      added := added + 1;
    }
    assert items[..|items|] == items;
    return true, added;
  }

  /** The body of the instances loop for one instance: its rows, and how many there were. */
  method AppendInstance(table: AnnotationData, ctx: Context, imageName: string, folder: Value, im: ImageInfo,
                        a: Value, id: nat)
    returns (ok: bool, added: nat)
    requires table.Valid() && im.name == imageName
    modifies table
    ensures table.Valid()
    ensures ok <==> InstanceRecords(ctx, imageName, folder, im, a, id).Success?
    ensures ok ==> table.records == old(table.records) + InstanceRecords(ctx, imageName, folder, im, a, id).value
    ensures ok ==> added == |InstanceRecords(ctx, imageName, folder, im, a, id).value|
  {
    if !a.Dict? {
      return false, 0;
    }
    var inst := a.fields;
    var className := Get(inst, "className");
    if Unhashable(className) {
      return false, 0;
    }
    if !(className.Str? && className.s in ctx.classes) {
      return true, 0;
    }
    var entry := ctx.classes[className.s];
    var t := InstanceType(inst);
    var meta := GeometryMeta(t, inst);
    if meta.Failure? {
      return false, 0;
    }
    var actors := UserMetadata(inst);
    if actors.Failure? {
      return false, 0;
    }
    var base := WithImage(WithActors(InstanceBase(imageName, id, className.s, t, inst, meta.value, entry.color, folder),
                                     actors.value), im);
    var attributes := Get(inst, "attributes");
    if !Truthy(attributes) {
      table.Append(base);
      return true, 1;
    }
    match Elements(attributes)
    case None =>
      return false, 0;
    case Some(items) =>
      ok, added := AppendAttributes(table, entry.groups, items, base);
  }

  /** A failed prefix of the instance loop fails the whole loop. */
  lemma {:induction false} InstancesPassFails(ctx: Context, imageName: string, folder: Value, im: ImageInfo,
                                              insts: seq<Value>, n: nat)
    requires im.name == imageName
    requires n <= |insts| && InstancesPass(ctx, imageName, folder, im, insts[..n]).Failure?
    ensures InstancesPass(ctx, imageName, folder, im, insts).Failure?
    decreases |insts| - n
  {
    if n == |insts| {
      assert insts[..n] == insts;
    } else {
      assert insts[..n + 1][..n] == insts[..n];
      InstancesPassFails(ctx, imageName, folder, im, insts, n + 1);
    }
  }

  /** The pass over the first `i` instances has been appended after `start`, and `id` is its counter. */
  ghost predicate InstancesDone(table: AnnotationData, ctx: Context, imageName: string, folder: Value, im: ImageInfo,
                                insts: seq<Value>, i: nat, id: nat, start: seq<Record>)
    requires im.name == imageName && i <= |insts|
    reads table
  {
    var p := InstancesPass(ctx, imageName, folder, im, insts[..i]);
    p.Success? && id == p.value.nextId && table.records == start + p.value.records
  }

  lemma ConcatAssoc<T>(a: seq<T>, b: seq<T>, c: seq<T>)
    ensures a + b + c == a + (b + c)
  {
  }

  /** The pass over `insts[..i + 1]` extends the pass over `insts[..i]` by the records of instance `i`. */
  lemma InstancesPassStep(ctx: Context, imageName: string, folder: Value, im: ImageInfo, insts: seq<Value>, i: nat)
    requires im.name == imageName
    requires i < |insts| && InstancesPass(ctx, imageName, folder, im, insts[..i]).Success?
    ensures var prev := InstancesPass(ctx, imageName, folder, im, insts[..i]).value;
            var own := InstanceRecords(ctx, imageName, folder, im, insts[i], prev.nextId);
            var next := InstancesPass(ctx, imageName, folder, im, insts[..i + 1]);
            && (next.Success? <==> own.Success?)
            && (own.Success? ==> next.value.records == prev.records + own.value)
            && (own.Success? ==> next.value.nextId == if |own.value| > 0 then prev.nextId + 1 else prev.nextId)
  {
    assert insts[..i + 1][..i] == insts[..i];
  }

  /** One turn of the instances loop: the rows of instance `i`, and the counter after it. */
  method AppendNextInstance(table: AnnotationData, ctx: Context, imageName: string, folder: Value, im: ImageInfo,
                            insts: seq<Value>, i: nat, id: nat, ghost start: seq<Record>)
    returns (ok: bool, next: nat)
    requires table.Valid() && im.name == imageName && i < |insts|
    requires InstancesDone(table, ctx, imageName, folder, im, insts, i, id, start)
    modifies table
    ensures table.Valid()
    ensures ok <==> InstancesPass(ctx, imageName, folder, im, insts[..i + 1]).Success?
    ensures ok ==> InstancesDone(table, ctx, imageName, folder, im, insts, i + 1, next, start)
  {
    InstancesPassStep(ctx, imageName, folder, im, insts, i);
    ghost var prev := InstancesPass(ctx, imageName, folder, im, insts[..i]).value.records;
    var added;
    ok, added := AppendInstance(table, ctx, imageName, folder, im, insts[i], id);
    next := if added > 0 then id + 1 else id;
    if ok {
      ghost var own := InstanceRecords(ctx, imageName, folder, im, insts[i], id).value;
      ConcatAssoc(start, prev, own);
    }
  }

  /** The instances loop of one file, with the per-file instance counter. */
  method AppendInstances(table: AnnotationData, ctx: Context, imageName: string, folder: Value, im: ImageInfo,
                         insts: seq<Value>)
    returns (ok: bool)
    requires table.Valid() && im.name == imageName
    modifies table
    ensures table.Valid()
    ensures ok <==> InstancesPass(ctx, imageName, folder, im, insts).Success?
    ensures ok ==> table.records == old(table.records) + InstancesPass(ctx, imageName, folder, im, insts).value.records
  {
    ghost var start := table.records;
    var instanceId: nat := 0;
    for i := 0 to |insts|
      invariant table.Valid()
      invariant InstancesDone(table, ctx, imageName, folder, im, insts, i, instanceId, start)
    {
      ok, instanceId := AppendNextInstance(table, ctx, imageName, folder, im, insts, i, instanceId, start);
      if !ok {
        InstancesPassFails(ctx, imageName, folder, im, insts, i + 1);
        return;
      }
    }
    assert insts[..|insts|] == insts;
    return true;
  }

  /** The comments of one file, when they are asked for. */
  method AppendFileComments(table: AnnotationData, options: Options, doc: map<string, Value>, im: ImageInfo)
    returns (ok: bool)
    requires table.Valid()
    modifies table
    ensures table.Valid()
    ensures ok <==> FileComments(options, doc, im).Success?
    ensures ok ==> table.records == old(table.records) + FileComments(options, doc, im).value
  {
    if !options.includeComments {
      return true;
    }
    var cs := ElementsAt(doc, "comments");
    if cs.Failure? {
      return false;
    }
    ok := AppendComments(table, cs.value, im);
  }

  /** The tags of one file, when they are asked for. */
  method AppendFileTags(table: AnnotationData, options: Options, doc: map<string, Value>, im: ImageInfo)
    returns (ok: bool)
    requires table.Valid()
    modifies table
    ensures table.Valid()
    ensures ok <==> FileTags(options, doc, im).Success?
    ensures ok ==> table.records == old(table.records) + FileTags(options, doc, im).value
  {
    if !options.includeTags {
      return true;
    }
    var ts := ElementsAt(doc, "tags");
    if ts.Failure? {
      return false;
    }
    AppendTags(table, ts.value, im);
    return true;
  }

  /** One parsed annotation file: its comments, its tags, then its instances. */
  method AppendDocument(table: AnnotationData, ctx: Context, imageName: string, folder: Value, doc: map<string, Value>)
    returns (ok: bool)
    requires table.Valid()
    modifies table
    ensures table.Valid()
    ensures ok <==> DocumentRecords(ctx, imageName, folder, doc).Success?
    ensures ok ==> table.records == old(table.records) + DocumentRecords(ctx, imageName, folder, doc).value
  {
    var im := ImageMetadata(imageName, doc);
    if im.Failure? {
      return false;
    }
    ghost var start := table.records;
    ok := AppendFileComments(table, ctx.options, doc, im.value);
    if !ok {
      return;
    }
    ghost var comments := FileComments(ctx.options, doc, im.value).value;
    ok := AppendFileTags(table, ctx.options, doc, im.value);
    if !ok {
      return;
    }
    ghost var tags := FileTags(ctx.options, doc, im.value).value;
    ConcatAssoc(start, comments, tags);
    var insts := ElementsAt(doc, "instances");
    if insts.Failure? {
      return false;
    }
    ok := AppendInstances(table, ctx, imageName, folder, im.value, insts.value);
    if ok {
      ConcatAssoc(start, comments + tags, InstancesPass(ctx, imageName, folder, im.value, insts.value).value.records);
    }
  }

  /** The body of the files loop for one annotation file. */
  method AppendFile(table: AnnotationData, ctx: Context, f: ExportFile) returns (ok: bool)
    requires table.Valid() && |ctx.postfix| > 0
    modifies table
    ensures table.Valid()
    ensures ok <==> FileRecords(ctx, f).Success?
    ensures ok ==> table.records == old(table.records) + FileRecords(ctx, f).value
  {
    var parts := Split(f.name, ctx.postfix);
    if |parts| != 2 {
      return true;
    }
    if !f.doc.Dict? {
      return false;
    }
    ok := AppendDocument(table, ctx, parts[0], FolderValue(f), f.doc.fields);
  }

  /** A failed prefix of the files loop fails the whole loop. */
  lemma {:induction false} AllRecordsFails(ctx: Context, files: seq<ExportFile>, n: nat)
    requires |ctx.postfix| > 0
    requires n <= |files| && AllRecords(ctx, files[..n]).Failure?
    ensures AllRecords(ctx, files).Failure?
    decreases |files| - n
  {
    if n == |files| {
      assert files[..n] == files;
    } else {
      assert files[..n + 1][..n] == files[..n];
      AllRecordsFails(ctx, files, n + 1);
    }
  }

  /** `name in df["className"].unique()`: some main-pass record has that class. */
  lemma ObservedClass(records: seq<Record>, classCol: seq<Value>, name: string)
    requires classCol == Column(records, ClassName)
    ensures Str(name) in classCol <==> HasClass(records, name)
  {
    if Str(name) in classCol {
      var i :| 0 <= i < |classCol| && classCol[i] == Str(name);
    }
  }

  /** The lookup of an attribute among the main-pass rows of its class and group. */
  predicate Listed(classCol: seq<Value>, groupCol: seq<Value>, nameCol: seq<Value>,
                   name: string, group: string, attribute: string)
  {
    exists i | 0 <= i < |classCol| && i < |groupCol| && i < |nameCol| ::
      classCol[i] == Str(name) && groupCol[i] == Str(group) && nameCol[i] == Str(attribute)
  }

  /** The attribute filter of the back-fill finds exactly the main-pass records with that attribute. */
  lemma ObservedAttribute(records: seq<Record>, classCol: seq<Value>, groupCol: seq<Value>, nameCol: seq<Value>,
                          name: string, group: string, attribute: string)
    requires classCol == Column(records, ClassName)
    requires groupCol == Column(records, AttributeGroupName)
    requires nameCol == Column(records, AttributeName)
    ensures Listed(classCol, groupCol, nameCol, name, group, attribute) <==> HasAttribute(records, name, group, attribute)
  {
  }

  /** The main-pass columns the back-fill reads, taken from the frame built before it. */
  ghost predicate Snapshot(observed: seq<Record>, classCol: seq<Value>, groupCol: seq<Value>, nameCol: seq<Value>) {
    && classCol == Column(observed, ClassName)
    && groupCol == Column(observed, AttributeGroupName)
    && nameCol == Column(observed, AttributeName)
  }

  /** The attributes loop of one group of the back-fill. */
  method AppendMissingAttributes(table: AnnotationData, c: ClassMeta, g: AttributeGroup,
                                 classCol: seq<Value>, groupCol: seq<Value>, nameCol: seq<Value>,
                                 ghost observed: seq<Record>)
    requires table.Valid() && Snapshot(observed, classCol, groupCol, nameCol)
    modifies table
    ensures table.Valid()
    ensures table.records == old(table.records) + MissingAttributes(c, g.name, g.attributes, observed)
  {
    ghost var start := table.records;
    for k := 0 to |g.attributes|
      invariant table.Valid()
      invariant table.records == start + MissingAttributes(c, g.name, g.attributes[..k], observed)
    {
      assert g.attributes[..k + 1][..k] == g.attributes[..k];
      var a := g.attributes[k];
      ObservedAttribute(observed, classCol, groupCol, nameCol, c.name, g.name, a);
      if !Listed(classCol, groupCol, nameCol, c.name, g.name, a) {
        ConcatAssoc(start, MissingAttributes(c, g.name, g.attributes[..k], observed), [AttributeRow(c, g.name, a)]);
        table.Append(AttributeRow(c, g.name, a));
      }
    }
    assert g.attributes[..|g.attributes|] == g.attributes;
  }

  /** The groups loop of one class of the back-fill. */
  method AppendMissingGroups(table: AnnotationData, c: ClassMeta,
                             classCol: seq<Value>, groupCol: seq<Value>, nameCol: seq<Value>,
                             ghost observed: seq<Record>)
    requires table.Valid() && Snapshot(observed, classCol, groupCol, nameCol)
    modifies table
    ensures table.Valid()
    ensures table.records == old(table.records) + MissingGroups(c, c.attributeGroups, observed)
  {
    ghost var start := table.records;
    for j := 0 to |c.attributeGroups|
      invariant table.Valid()
      invariant table.records == start + MissingGroups(c, c.attributeGroups[..j], observed)
    {
      assert c.attributeGroups[..j + 1][..j] == c.attributeGroups[..j];
      var g := c.attributeGroups[j];
      AppendMissingAttributes(table, c, g, classCol, groupCol, nameCol, observed);
      ConcatAssoc(start, MissingGroups(c, c.attributeGroups[..j], observed),
                  MissingAttributes(c, g.name, g.attributes, observed));
    }
    assert c.attributeGroups[..|c.attributeGroups|] == c.attributeGroups;
  }

  /** The loops that add classes and attributes without annotations. */
  method AppendBackfill(table: AnnotationData, classes: seq<ClassMeta>)
    requires table.Valid()
    requires ClassName in table.keys && AttributeGroupName in table.keys && AttributeName in table.keys
    modifies table
    ensures table.Valid()
    ensures table.records == old(table.records) + Backfill(classes, old(table.records))
  {
    // the frame `df` was built before this loop: the checks read its columns, not the growing table
    var classCol := table.data[ClassName];
    var groupCol := table.data[AttributeGroupName];
    var nameCol := table.data[AttributeName];
    ghost var observed := table.records;
    for i := 0 to |classes|
      invariant table.Valid()
      invariant table.records == observed + Backfill(classes[..i], observed)
    {
      assert classes[..i + 1][..i] == classes[..i];
      var c := classes[i];
      ObservedClass(observed, classCol, c.name);
      if Str(c.name) !in classCol {
        table.Append(ClassRow(c));
      } else {
        AppendMissingGroups(table, c, classCol, groupCol, nameCol, observed);
      }
      ConcatAssoc(observed, Backfill(classes[..i], observed), MissingOfClass(c, observed));
    }
    assert classes[..|classes|] == classes;
  }

  /** The pass over `files[..i + 1]` extends the pass over `files[..i]` by the records of file `i`. */
  lemma AllRecordsStep(ctx: Context, files: seq<ExportFile>, i: nat)
    requires |ctx.postfix| > 0
    requires i < |files| && AllRecords(ctx, files[..i]).Success?
    ensures var next := AllRecords(ctx, files[..i + 1]);
            var own := FileRecords(ctx, files[i]);
            && (next.Success? <==> own.Success?)
            && (own.Success? ==> next.value == AllRecords(ctx, files[..i]).value + own.value)
  {
    assert files[..i + 1][..i] == files[..i];
  }

  /** The files loop. */
  method AppendFiles(table: AnnotationData, ctx: Context, files: seq<ExportFile>) returns (ok: bool)
    requires table.Valid() && |ctx.postfix| > 0
    modifies table
    ensures table.Valid()
    ensures ok <==> AllRecords(ctx, files).Success?
    ensures ok ==> table.records == old(table.records) + AllRecords(ctx, files).value
  {
    ghost var start := table.records;
    for i := 0 to |files|
      invariant table.Valid()
      invariant AllRecords(ctx, files[..i]).Success?
      invariant table.records == start + AllRecords(ctx, files[..i]).value
    {
      AllRecordsStep(ctx, files, i);
      ok := AppendFile(table, ctx, files[i]);
      if !ok {
        AllRecordsFails(ctx, files, i + 1);
        return;
      }
      ConcatAssoc(start, AllRecords(ctx, files[..i]).value, FileRecords(ctx, files[i]).value);
    }
    assert files[..|files|] == files;
    return true;
  }

  /** The class tables and the suffix of the export's annotation files. */
  method MakeContext(root: ExportRoot, options: Options) returns (ctx: Context)
    requires root.classes.Some?
    ensures ctx == ContextOf(root, options)
  {
    var tables := BuildClassTables(root.classes.value);
    var postfix := if exists n | n in root.treeNames :: EndsWith(n, VECTOR_POSTFIX) then VECTOR_POSTFIX
                   else PIXEL_POSTFIX;
    ctx := Context(tables, postfix, options);
  }

  /** Past the two up-front checks, the aggregation is the main pass, then the back-fill when asked for. */
  lemma AggregateOfPass(root: ExportRoot, options: Options)
    requires !IsDeprecatedExport(root) && root.classes.Some?
    ensures var pass := AllRecords(ContextOf(root, options), root.files);
      && (pass.Failure? ==> Aggregate(root, options) == Failure(Malformed))
      && (pass.Success? && options.includeClassesWoAnnotations ==>
            Aggregate(root, options) == Success(pass.value + Backfill(root.classes.value, pass.value)))
      && (pass.Success? && !options.includeClassesWoAnnotations ==> Aggregate(root, options) == pass)
  {
  }

  /**
   * `aggregate_image_annotations_as_df`: the table it returns holds exactly
   * the records of `Aggregate`, and it fails exactly when `Aggregate` does,
   * with the same error.
   */
  method AggregateImageAnnotations(root: ExportRoot, options: Options) returns (r: Result<AnnotationData>)
    ensures r.Failure? ==> Aggregate(root, options) == Failure(r.error)
    ensures r.Success? ==> fresh(r.value) && r.value.Valid()
    ensures r.Success? ==> r.value.keys == Columns(options.includeComments, options.includeTags)
    ensures r.Success? ==> Aggregate(root, options) == Success(r.value.records)
  {
    if IsDeprecatedExport(root) {
      return Failure(DeprecatedExport);
    }
    var table := new AnnotationData(options.includeComments, options.includeTags);
    if root.classes.None? {
      return Failure(MissingClassesFile);
    }
    var ctx := MakeContext(root, options);
    AggregateOfPass(root, options);
    var ok := AppendFiles(table, ctx, root.files);
    if !ok {
      return Failure(Malformed);
    }
    ghost var main := AllRecords(ctx, root.files).value;
    assert table.records == main by {
      assert [] + main == main;
    }
    if options.includeClassesWoAnnotations {
      AppendBackfill(table, root.classes.value);
    }
    return Success(table);
  }
}

# SuperAnnotate SDK analytics and model use cases, modelled in Dafny

This project models the analytics core of the SuperAnnotate Python SDK,
together with the use cases built on it, and proves properties of the model.
It covers:

- **Aggregation.** `aggregate_image_annotations_as_df` turns a project export
  into one table. An export is a `classes/classes.json` file plus one
  annotation file per image. The table gets one row per comment, per tag,
  per instance without attributes and per valid attribute of an instance.
  With `include_classes_wo_annotations`, back-filled rows are added for
  classes and attributes that no annotation uses.
- **Scoring.** `instance_consensus` scores a pair of shapes: intersection
  over union for polygons, minus the distance for points.
- **Matching.** `image_consensus` matches the instances of one image across
  folders greedily and scores each matched instance.
- **Reconstruction.** `df_to_annotations` turns a table back into per-image
  annotation documents and a classes list.
- **Consensus and Benchmark.** In `models.py`, these filter the table, collapse
  each instance's attribute rows (`aggregate_attributes`) and concatenate the
  per-image consensus frames.
- **Exports.** `PrepareExport` validates and requests an export; `GetExports`
  lists the exports.
- **Model creation.** `CreateModel` covers `hyper_parameters`, `split_path`,
  the resolution of the training and test folders, and the three checks
  before a model is created.
- **Entities.** `project_entities.py` provides `to_dict`, `from_dict` and
  `__copy__`.

Module layout:

| file | module | source |
|---|---|---|
| values.dfy | `Values` | Python's dynamic values (`Value`), results and errors. |
| strings.dfy | `Strings` | `str.split`, `str.find`, joining. |
| table.dfy | `Table` | The 31 columns and `Record`. `AnnotationData` is the dict of column lists that `__append_annotation` fills in place. |
| aggregation.dfy | `Aggregation` | The aggregation as functions over the parsed export. |
| aggregator.dfy | `Aggregator` | The same loops as imperative methods on an `AnnotationData`, each proved equal to the functions. |
| geometry.dfy | `Geometry` | `instance_consensus` and the building of shapes. |
| matching.dfy | `Matching` | `image_consensus` as functions, with the lemmas about matching and scores. |
| matcher.dfy | `Matcher` | The nested loops of `image_consensus` as methods, proved equal to `Matching.ImageConsensus`, errors included. |
| frames.dfy | `Frames` | Row masks, and the groupby with `aggregate_attributes`. |
| usecases.dfy | `UseCases` | `ConsensusUseCase.execute` and `BenchmarkUseCase.execute`. |
| reconstruct.dfy | `Reconstruct` | `df_to_annotations`. |
| exports.dfy | `Exports` | `PrepareExportUseCase` and `GetExportsUseCase`. |
| modelcreation.dfy | `ModelCreation` | `CreateModelUseCase`. |
| entities.dfy | `Entities` | The entity classes' dict conversions and copies. |

Choices the model makes:

- **Failures.** Python exceptions become `Result` failures. `KeyError`,
  `TypeError` and `AttributeError` on a malformed document are all
  `Malformed`, and so are the `ValueError` of `int` on a string that is no
  integer and that of shapely on a polygon of one or two vertices. The other
  failures get their own errors:
  - a division by zero is `ZeroDivision`;
  - an unsupported pair of shapes is `NotImplemented`;
  - an unbound `inst` is `UnboundShape`;
  - a deprecated export is `DeprecatedExport`;
  - a missing classes file is `MissingClassesFile`.
- **Shapely.** The geometry is an `Oracle` parameter. It supplies areas,
  intersections, distances and `is_valid`. The laws used by the score lemmas
  are stated as the predicate `Geometry.Lawful`.
- **Folder names.** A row's `folderName` is the name of the annotation file's
  immediate parent directory, as `annotation_path.parent.name` computes it.
  It is not the top-level sub-folder of the export. The model follows this
  code.

## Model

Paths are relative to the repository root; `common.py` is
`src/superannotate/lib/app/analytics/common.py`.

| member | source | states |
|---|---|---|
| Aggregation.Aggregate | src/superannotate/lib/app/analytics/common.py:172-225 | An export whose first file is neither a vector nor a pixel annotation fails as deprecated, before anything else. An export without a classes file fails as missing its classes. Every other failure is a malformed document. |
| Aggregator.AggregateImageAnnotations | src/superannotate/lib/app/analytics/common.py:139-503 | The imperative aggregation returns a fresh table. Its columns are the base columns plus the optional comment and tag columns. Its rows are exactly the records `Aggregate` defines. It fails exactly when `Aggregate` fails, with the same error. |
| Aggregation.AggregateRows | src/superannotate/lib/app/analytics/common.py:337-452 | In every aggregated row, an instance row names a class of classes.json. It carries that class's colour, which is the colour of the last classes.json entry with that name. The comment and tag cells stay empty unless they were asked for. |
| Aggregation.AggregateCoversClasses | src/superannotate/lib/app/analytics/common.py:457-499 | With the back-fill on, every class of classes.json occurs in the table. So does every attribute of every class that some annotation used. |
| Aggregation.BackfillExact | src/superannotate/lib/app/analytics/common.py:457-499 | The back-fill adds a class row for each class without annotations. It adds an attribute row for each unused attribute of a used class. It adds nothing else. |
| Aggregation.MissingGroupsExact | src/superannotate/lib/app/analytics/common.py:471-497 | One class's back-filled rows are exactly its groups' attributes that no observed row carries. |
| Aggregation.InstancesPassNumbered | src/superannotate/lib/app/analytics/common.py:314-452 | The record ids within a file start at 0 and step by 0 or 1, and the last is one below the counter. The counter ends at most at the instance count. |
| Aggregation.InstancesPassCount | src/superannotate/lib/app/analytics/common.py:314-452 | The counter ends at the number of instances that emitted a row: it advances past exactly those, and an instance with no row takes no id. |
| Aggregation.InstancesPassBlocks | src/superannotate/lib/app/analytics/common.py:337-452 | The loop's rows are each instance's rows in order. Instance `i` succeeds with the number of emitting instances before it as its id. |
| Aggregation.BlocksIds | src/superannotate/lib/app/analytics/common.py:383-449 | Every row of instance `i` carries the number of emitting instances before it as its instance id. |
| Aggregation.InstanceRecordsIdFree | src/superannotate/lib/app/analytics/common.py:337-449 | Whether an instance fails, and how many rows it gives, does not depend on the id it is given. |
| Aggregation.InstancesPassRows | src/superannotate/lib/app/analytics/common.py:337-449 | Every instance row is of the file's image and folder. It names a known class and carries that class's colour. |
| Aggregation.InstanceRecordsSkip | src/superannotate/lib/app/analytics/common.py:337-348 | An instance that is not a dict, or whose class name cannot be hashed, fails. An instance of an unknown class contributes no row. |
| Aggregation.InstanceRecordsOf | src/superannotate/lib/app/analytics/common.py:337-403 | Every row of an instance carries the instance's id, class, class colour and folder. Its type defaults to `mask` when the instance has none. |
| Aggregation.InstanceRecordsAttributes | src/superannotate/lib/app/analytics/common.py:383-449 | An instance without attributes gives one row with no attribute. An instance with attributes gives one row per attribute its class declares, in the order of the attributes, with that attribute's group and name. No other attribute gives a row. |
| Aggregation.AttributeRecordsFilter | src/superannotate/lib/app/analytics/common.py:405-449 | The attribute loop fails exactly when some attribute cannot be read. Otherwise its rows are the instance's row with each valid attribute, one per valid attribute, in order. |
| Aggregation.ValidItems | src/superannotate/lib/app/analytics/common.py:407-428 | The attributes kept are exactly those whose group and name the class declares, in their order. |
| Aggregation.ImageMetadata | src/superannotate/lib/app/analytics/common.py:248-257 | Image metadata is read iff `metadata` is a dict. It carries the image's name and the `.get` of `height`, `width`, `status`, `pinned`, `annotatorEmail` and `qaEmail` in `metadata`. |
| Aggregation.UserMetadata | src/superannotate/lib/app/analytics/common.py:259-284 | It fails iff a truthy `createdBy` or `updatedBy` is not a dict. A truthy actor gives the `.get` of its `email` and `role`; a falsy one leaves both as None. The timestamps are `pd.to_datetime` of `createdAt` and `updatedAt`, and `creationType` is copied. |
| Aggregation.CommentRecord | src/superannotate/lib/app/analytics/common.py:316-331 | A comment row is of type comment and of the image, and has no instance id, folder or tag. A failure to read a comment is `Malformed`. |
| Aggregation.CommentRecords | src/superannotate/lib/app/analytics/common.py:315-331 | There is one comment row per comment, in order, of type comment, of the image, with no instance id, folder or tag. The loop fails exactly when some comment lacks a field. |
| Aggregation.TagRecords | src/superannotate/lib/app/analytics/common.py:332-336 | There is one tag row per tag, in order, holding the tag, with no instance id or comment flag. |
| Aggregation.GeometryMeta | src/superannotate/lib/app/analytics/common.py:354-373 | The `meta` cell holds exactly the geometry fields of the instance's type, each with the instance's value, and is None for other types. It fails exactly when one of those fields is missing. |
| Aggregation.FileRecords | src/superannotate/lib/app/analytics/common.py:307-312 | A file whose name does not split in two around the type suffix contributes nothing. |
| Aggregation.ClassTables | src/superannotate/lib/app/analytics/common.py:227-239 | The class tables have exactly the names of classes.json as keys. |
| Aggregation.ClassTablesLast | src/superannotate/lib/app/analytics/common.py:229-239 | A class name maps to the colour and group table of the last classes.json entry with that name. |
| Aggregation.GroupTable | src/superannotate/lib/app/analytics/common.py:233-239 | A class's group table has exactly the names of its attribute groups as keys. |
| Aggregation.GroupTableLast | src/superannotate/lib/app/analytics/common.py:233-239 | A group name maps to the attribute names of the last group with that name, in order. |
| Aggregator.BuildClassTables | src/superannotate/lib/app/analytics/common.py:227-239 | The classes.json loop builds exactly `ClassTables`. |
| Aggregator.AppendFiles | src/superannotate/lib/app/analytics/common.py:307-452 | The files loop appends exactly the records of every file, in order. It fails exactly when some file does. |
| Aggregator.AppendInstances | src/superannotate/lib/app/analytics/common.py:314-452 | The instance loop, with its per-file counter, appends exactly the records of the instance pass. |
| Aggregator.AppendBackfill | src/superannotate/lib/app/analytics/common.py:457-499 | The back-fill loops append exactly `Backfill` of the rows present before them. |
| Aggregator.ObservedAttribute | src/superannotate/lib/app/analytics/common.py:471-489 | The back-fill's column filter finds an attribute exactly when some main-pass row has that class, group and attribute. |
| Table.AnnotationData.Append | src/superannotate/lib/app/analytics/common.py:241-246 | Appending a record adds one cell per column: the record's own cell, or None for a key it lacks. No column is added or removed. |
| Table.AnnotationData.EqualLengths | src/superannotate/lib/app/analytics/common.py:182-246 | Every column holds one cell per appended record. |
| Table.AnnotationData.Frame | src/superannotate/lib/app/analytics/common.py:454 | `pd.DataFrame(annotation_data)` has row i built from cell i of every column. That is each record restricted to the table's columns. |
| Table.Columns | src/superannotate/lib/app/analytics/common.py:182-217 | The `commentResolved` column exists iff comments are asked for, and `tag` iff tags are. The class and attribute columns are always there. |
| Geometry.InstanceConsensus | src/superannotate/lib/app/analytics/common.py:506-524 | Shapes of different kinds give NotImplemented. Two polygons give intersection over union, failing on a union of area 0. Two points give minus their distance. |
| Geometry.ConsensusSymmetric | src/superannotate/lib/app/analytics/common.py:506-524 | Under shapely's laws, the score does not depend on the order of the pair. |
| Geometry.ConsensusRange | src/superannotate/lib/app/analytics/common.py:506-524 | Under shapely's laws, a polygon score lies in [0, 1] and a point score is at most 0. |
| Geometry.BuildShape | src/superannotate/lib/app/analytics/common.py:571-584 | bbox, polygon and point give a box, a polygon and a point. Any other type leaves the shape unbound. A malformed `meta` fails, and so does a polygon of one or two vertices. |
| Geometry.BoxNormalised | src/superannotate/lib/app/analytics/common.py:572-576 | A box's corners are the least and the greatest of the two given coordinates. |
| Geometry.PolygonVertices | src/superannotate/lib/app/analytics/common.py:577-582 | A built polygon's `points` is a list, or a string or dict of length at most one, which gives no vertex. A list's vertices are its coordinates read two at a time, an odd last one dropped. A built polygon has no vertices or at least three. |
| Geometry.PolygonShortPoints | src/superannotate/lib/app/analytics/common.py:577-582 | A `points` string or dict of length at most one leaves `range` empty and gives the empty polygon. |
| Geometry.PolygonTooFewVertices | src/superannotate/lib/app/analytics/common.py:577-582 | A `points` list of two to five numbers gives one or two vertices, and the polygon fails. |
| Geometry.PairsTotal | src/superannotate/lib/app/analytics/common.py:579-581 | Coordinates that are all numbers always pair up. |
| Matching.CollectEntries | src/superannotate/lib/app/analytics/common.py:566-592 | Each folder's list holds exactly the valid shapes of its rows of the image, in row order. |
| Matching.CollectDistinct | src/superannotate/lib/app/analytics/common.py:566-570 | The image's folders have distinct names. |
| Matching.CollectFails | src/superannotate/lib/app/analytics/common.py:568-588 | Collecting fails exactly when some row of the image has no shape that can be built. |
| Matching.ScanBest | src/superannotate/lib/app/analytics/common.py:609-626 | The scan of another folder keeps the earliest best-scoring unvisited candidate of the leader's class, provided it beats the floor (0, or minus infinity for points). Without such a candidate it finds none. It fails exactly when some unvisited instance cannot be scored against the leader. |
| Matching.GroupOfExact | src/superannotate/lib/app/analytics/common.py:598-626 | A leader's group holds the leader and, in every other folder, its partner there if it has one. A folder without a member has no partner. |
| Matching.GroupMembers | src/superannotate/lib/app/analytics/common.py:598-626 | Every member of a group was unvisited when the group formed, and has the leader's class. |
| Matching.MatchesPartition | src/superannotate/lib/app/analytics/common.py:593-626 | The groups partition the image's valid instances. Every instance is in some group, and none is in two. A group has at most one instance per folder, contains its leader, and all its members share the leader's class. |
| Matching.MatchesCover | src/superannotate/lib/app/analytics/common.py:598-626 | After the loop, every valid instance of the image is in some group. |
| Matching.AgreementRange | src/superannotate/lib/app/analytics/common.py:637-644 | Under shapely's laws, each other folder's member adds a credit in (0, 1]. So the agreement lies between 0 and the number of such members. For points it equals that number. |
| Matching.GroupRecordsExact | src/superannotate/lib/app/analytics/common.py:627-652 | A group gives one row per member, in order. A lone member scores 0. A shared group scores each member's agreement divided by the other folders' count. Only a shared group can fail. |
| Matching.EmitRows | src/superannotate/lib/app/analytics/common.py:598-653 | The emitted instance ids are the group numbers, in order. The rows with id k are exactly group k's rows. |
| Matching.ImageConsensusRows | src/superannotate/lib/app/analytics/common.py:527-655 | `image_consensus` gives rows whose ids follow the groups in order. The rows with id k are group k's members, scored with the frame's folder count. |
| Matching.ImageConsensusScores | src/superannotate/lib/app/analytics/common.py:627-652 | Under shapely's laws, every score lies in [0, 1] and a lone instance scores 0. A shared point instance scores (k - 1) / (F - 1), where k is its group's size and F the folder count. |
| Matching.ImageConsensusFails | src/superannotate/lib/app/analytics/common.py:637-652 | Once the groups are formed, the image fails only when a member of a shared group cannot be scored. The division by the folder count never fails, because a shared group spans at least two folders. |
| Matching.ImageConsensusError | src/superannotate/lib/app/analytics/common.py:598-652 | Past the collection of shapes, an image fails only with a division by zero: the collected shapes are all of one kind. |
| Matching.GroupWithinFolders | src/superannotate/lib/app/analytics/common.py:550 | A group has no more members than the frame has folder names. |
| Matcher.ImageConsensusLoop | src/superannotate/lib/app/analytics/common.py:561-655 | The nested loops of `image_consensus` return exactly `Matching.ImageConsensus`, failures included. The visited flags are sequences that the loops reassign. |
| Matcher.CollectShapes | src/superannotate/lib/app/analytics/common.py:566-592 | The `projects_shaply_objs` loop builds exactly the collected folders. |
| Matcher.BestCandidate | src/superannotate/lib/app/analytics/common.py:609-623 | The `max_score` and `max_inst_id` loop computes exactly the scan. |
| Matcher.MaxInstances | src/superannotate/lib/app/analytics/common.py:603-626 | The `max_instances` loop gives the leader's group. The flags it leaves are the old flags with the group's members set. |
| Matcher.GroupData | src/superannotate/lib/app/analytics/common.py:627-652 | The rows appended for one group are exactly `GroupRecords`. |
| Reconstruct.DfToAnnotations | src/superannotate/lib/app/analytics/common.py:14-136 | The imperative loops over the images and then over the rows compute exactly `Annotations`. |
| Reconstruct.AnnotationsExact | src/superannotate/lib/app/analytics/common.py:30-99 | There is one document per distinct non-None image name, in first-occurrence order. The run succeeds exactly when every image's document can be built. The classes list does not depend on the images. |
| Reconstruct.UniqueExact | src/superannotate/lib/app/analytics/common.py:31 | `dropna().unique()` gives every non-None value once, in the order the values first occur. |
| Reconstruct.ClassNamesUnique | src/superannotate/lib/app/analytics/common.py:101-116 | The classes list holds the distinct non-None class names of the rows, in first-occurrence order. |
| Reconstruct.ClassNamesDistinct | src/superannotate/lib/app/analytics/common.py:101-116 | No two classes share a name, and none is None. |
| Reconstruct.ClassesColor | src/superannotate/lib/app/analytics/common.py:109-115 | A class keeps the colour of the first row that names it. |
| Reconstruct.ClassesTidy | src/superannotate/lib/app/analytics/common.py:117-131 | Within a class the group names are distinct. Within a group the attribute names are distinct. |
| Reconstruct.ClassesRecord | src/superannotate/lib/app/analytics/common.py:101-131 | The classes list records a class, group and attribute exactly when some row names all three and none of them is None. |
| Values.DictUpdate | src/superannotate/lib/app/analytics/common.py:61 | `d.update(arg)` succeeds iff its argument is a dict, the empty string or a list of pairs, and raises otherwise. A dict's entries are laid over `d`. `[]` and `""` change nothing, and no key of `d` is lost. |
| Values.UpdatePairs | src/superannotate/lib/app/analytics/common.py:61 | A list argument fails iff some element is not a pair. The keys are those of `d` and those the pairs set. |
| Values.UpdatePairsLast | src/superannotate/lib/app/analytics/common.py:61 | A key takes the value of the last pair that sets it. |
| Values.UpdatePairsKeeps | src/superannotate/lib/app/analytics/common.py:61 | A key of `d` that no pair sets keeps its value. |
| Values.UpdateFromItems | src/superannotate/lib/app/analytics/common.py:61 | Updating from `list(m.items())`, in any order of the keys, is the same as updating from `m`. |
| Reconstruct.InstanceAnnotationSucceeds | src/superannotate/lib/app/analytics/common.py:43-69 | An instance document can be built iff it has rows, its group id converts with `int`, `dict.update` accepts `meta`, and `attributes` after the update is a list when there are attributes to add. For a dict `meta` that is its own `attributes`, if any. An empty list or string `meta` leaves only the group id to fail. `int` accepts numeric strings. |
| Reconstruct.InstanceAnnotationFields | src/superannotate/lib/app/analytics/common.py:46-61 | An instance document holds the first row's fields updated with `meta`. A dict `meta` is laid over them. |
| Reconstruct.InstanceAnnotationAttributes | src/superannotate/lib/app/analytics/common.py:62-69 | The rows' attributes are appended to whatever list `attributes` holds after the update. |
| Reconstruct.InstanceMetaSequences | src/superannotate/lib/app/analytics/common.py:61 | A `meta` of `[]` or `""` builds the instance from the row's own fields. A `meta` of `[["x", 1]]` sets `x` to 1. |
| Reconstruct.AttributeListExact | src/superannotate/lib/app/analytics/common.py:62-69 | An instance carries one attribute per row with an attribute group, and no other. |
| Reconstruct.CommentsRestore | src/superannotate/lib/app/analytics/common.py:76-83 | The comments rebuilt from an image's comment rows are the comments the aggregation read, in order. Each keeps its position, its correspondence and its resolution. |
| Reconstruct.TagsRestore | src/superannotate/lib/app/analytics/common.py:85-87 | The tags rebuilt from an image's tag rows are the tags the aggregation read, in order. |
| Reconstruct.NoInstancesFails | src/superannotate/lib/app/analytics/common.py:71-94 | An image none of whose rows has an instance id fails, because `int(None)` raises on its width. |
| Reconstruct.ToIntTruncates | src/superannotate/lib/app/analytics/common.py:60 | `int` of a number truncates toward zero. |
| Reconstruct.ToInt | src/superannotate/lib/app/analytics/common.py:60 | `int` succeeds exactly on integers, booleans, numbers and strings that spell a decimal integer. A boolean gives 0 or 1, and a string gives the integer it spells. |
| Reconstruct.ToIntShown | src/superannotate/lib/app/analytics/common.py:60 | `int` of the text `str(n)` writes, padded with whitespace, is `n`. |
| Strings.ParseIntShow | src/superannotate/lib/app/analytics/common.py:60 | Parsing a decimal integer reads back the text `str(n)` writes, with any whitespace around it. |
| Strings.ParseIntNeedsDigit | src/superannotate/lib/app/analytics/common.py:60 | A string without a decimal digit is not an integer. |
| Strings.StripLeft | src/superannotate/lib/app/analytics/common.py:60 | `lstrip` drops exactly the leading whitespace: the result is a suffix that does not start with whitespace, and what it drops is blank. |
| Strings.StripRight | src/superannotate/lib/app/analytics/common.py:60 | `rstrip` drops exactly the trailing whitespace, in the same way. |
| Frames.ConsensusRowsExact | src/superannotate/lib/core/usecases/models.py:638-649 | An aggregated row is kept iff it has an instance id, belongs to a requested folder, belongs to a listed image when a list is given, and has the requested type. Kept rows stay in table order. |
| Frames.BenchmarkRowsExact | src/superannotate/lib/core/usecases/models.py:547-562 | A folder's benchmark frame is its kept rows followed by the kept ground-truth rows. |
| Frames.CollapseExact | src/superannotate/lib/core/usecases/models.py:651-676 | The attributes of a collapsed instance are None iff none of its rows names a group. Otherwise each named group maps to the attribute names of its rows, in row order. |
| Frames.AggregateAttributesGroups | src/superannotate/lib/core/usecases/models.py:678-683 | Each (image, instance, folder) key without a None gets one row, and that row is the collapse of all the key's rows. |
| Frames.AggregateAttributes | src/superannotate/lib/core/usecases/models.py:678-683 | The groupby fails exactly when some key or group cell cannot be hashed. |
| Frames.GroupKeysExact | src/superannotate/lib/core/usecases/models.py:678-680 | The groups are exactly the keys without a None that some row carries. |
| UseCases.ConsensusExecute | src/superannotate/lib/core/usecases/models.py:637-698 | `ConsensusUseCase.execute` visits the images in some order of the set of image names. Its result is the concatenation the model defines for that order. |
| UseCases.ConsensusExact | src/superannotate/lib/core/usecases/models.py:637-698 | Each image's rows in the result are exactly `image_consensus` over the kept instances. The run fails iff the export fails, the collapse fails, some image fails, or nothing is kept. |
| UseCases.ImageRows | src/superannotate/lib/core/usecases/models.py:684-692 | The loop over `set(imageName)` takes every image once, in some order. It concatenates their frames in that order. |
| UseCases.ConcatAllExact | src/superannotate/lib/core/usecases/models.py:684-692 | The concatenation fails iff some image fails or there is no image at all. Otherwise the rows of each image are that image's frame. |
| UseCases.BenchmarkExecute | src/superannotate/lib/core/usecases/models.py:546-616 | `BenchmarkUseCase.execute` gives every folder an order of its images. Its result is the concatenation of the folders' blocks for those orders. |
| UseCases.BenchmarkExact | src/superannotate/lib/core/usecases/models.py:546-612 | For distinct folder names, Benchmark fails iff the export fails, no folder is given, or some folder's run fails. The rows of each folder are exactly that folder's block. |
| UseCases.BenchmarkFolderImages | src/superannotate/lib/core/usecases/models.py:597-611 | In a folder's block, the rows of an image are that folder's rows of `image_consensus` over the folder's and the ground truth's instances. |
| UseCases.BenchmarkFolderOwn | src/superannotate/lib/core/usecases/models.py:608-610 | A folder's block holds only rows of that folder. |
| Exports.ExportIssuesExact | src/superannotate/lib/core/usecases/models.py:57-73 | The validators reject a fuse export and a pinned-only export of an External project, and nothing else. Each error names the project's type. |
| Exports.PrepareExportOutcome | src/superannotate/lib/core/usecases/models.py:75-110 | An export is rejected iff the project is External and fuse or pinned output is asked for. Otherwise the backend's answer is the result, unless it holds an error or lacks a name. |
| Exports.ExportRequestDefaults | src/superannotate/lib/core/usecases/models.py:77-97 | With no statuses given, the request asks for the six default statuses. With no folders given, it asks for no folder filter. It never asks for fuse output of an External project. The other arguments pass through. |
| Exports.ForcedFuseIsRedundant | src/superannotate/lib/core/usecases/models.py:75-78 | Every request that passes the validators carries the caller's fuse flag unchanged. |
| Exports.ExportNames | src/superannotate/lib/core/usecases/models.py:131-132 | The names list succeeds iff every entry is a dict with a name. It then holds those names in order. |
| Exports.GetExportsProjects | src/superannotate/lib/core/usecases/models.py:125-133 | With metadata, the listing comes back unchanged. Without it, the result is the entries' names in order, and it fails when an entry has no name. |
| ModelCreation.DefaultKeysListed | src/superannotate/lib/core/__init__.py:19-32 | The key list the loop walks and the default hyper-parameter keys are the same set. |
| ModelCreation.FilledMeaning | src/superannotate/lib/core/usecases/models.py:166-176 | A missing or empty dict is replaced by the defaults. Otherwise the caller's parameters keep their values, every missing default is added, and nothing else is. |
| ModelCreation.FilledIdempotent | src/superannotate/lib/core/usecases/models.py:166-176 | Filling in parameters that are already filled changes nothing. |
| ModelCreation.FillMissing | src/superannotate/lib/core/usecases/models.py:169-173 | The loop adds each listed key the dict lacks, with its default, and keeps every present key's value. |
| ModelCreation.ModelRequest.HyperParameters | src/superannotate/lib/core/usecases/models.py:166-176 | The property stores the filled parameters in the use case and returns them. |
| ModelCreation.SplitPathMeaning | src/superannotate/lib/core/usecases/models.py:178-182 | A path without `/` names the project's root folder. A path with one `/` splits into a project and a folder that contain no `/`. A path with more fails to unpack. |
| ModelCreation.SplitPathJoined | src/superannotate/lib/core/usecases/models.py:178-182 | A project name and a folder name without `/` come back from the path they make. |
| ModelCreation.SelectFolders | src/superannotate/lib/core/usecases/models.py:185-217 | The training loop and the test loop, as written, compute exactly `SelectAsWritten`. A bad path or an empty lookup stops them. |
| ModelCreation.TrainKeepsLastOnly | src/superannotate/lib/core/usecases/models.py:189-202 | As written, the training loop ends with only the last path's projects, doubled. |
| ModelCreation.RejectionExact | src/superannotate/lib/core/usecases/models.py:219-241 | The checks pass iff no folder is used for both training and testing, there is at least one project, all projects have one type, and none is External. |
| ModelCreation.GatherResolves | src/superannotate/lib/core/usecases/models.py:189-217 | The corrected gathering gives one folder id per path. Each id belongs to the path's folder in the path's own project. The gathered projects are exactly those the paths name. |
| ModelCreation.SelectResolves | src/superannotate/lib/core/usecases/models.py:204-217 | The corrected selection resolves every training and every test path in its own project. |
| ModelCreation.CreateModelChecksEveryPath | src/superannotate/lib/core/usecases/models.py:184-241 | The corrected `execute` accepts only data whose folders all resolve in their own projects, and whose projects all share one type with none External. |
| ModelCreation.MixedTrainingAccepted | src/superannotate/lib/core/usecases/models.py:189-230 | As written, training on a vector and a pixel project passes the type check. The corrected version rejects it. |
| ModelCreation.TestFolderFromWrongProject | src/superannotate/lib/core/usecases/models.py:204-217 | As written, a test folder is looked up in the first accumulated project. The corrected version looks it up in the path's own project. |
| Entities.TimedDicts | src/superannotate/lib/core/entities/project_entities.py:35-40 | A class's dict and a model's dict carry the base id and timestamps. A model's do so unless a hyper-parameter overrides them. |
| Entities.ConfigDictInverse | src/superannotate/lib/core/entities/project_entities.py:56-57 | A configuration entry comes back from its dict's `key` and `value`. |
| Entities.CopyProjectKeeps | src/superannotate/lib/core/entities/project_entities.py:107-117 | A copied project keeps its team, name, type, description, status, folder, users and upload state. It clears the id, the timestamps and every other field. |
| Entities.ProjectDictKeys | src/superannotate/lib/core/entities/project_entities.py:119-137 | A project's dict holds the base keys and fifteen of its own. Contributors, settings, classes and workflow are not serialised. |
| Entities.ProjectDictFields | src/superannotate/lib/core/entities/project_entities.py:119-137 | The project type is serialised under `type`, and the base fields keep their values. |
| Entities.CopySettingDict | src/superannotate/lib/core/entities/project_entities.py:153-162 | A copied setting keeps its attribute and value and belongs to no saved project. |
| Entities.CopyWorkflowDict | src/superannotate/lib/core/entities/project_entities.py:182-193 | A copied workflow step keeps its step, tool and attribute and clears its ids. |
| Entities.FolderDictKeys | src/superannotate/lib/core/entities/project_entities.py:215-224 | A folder's dict adds its own five fields to the base ones. Repeating `id` changes nothing. |
| Entities.FromDictRenames | src/superannotate/lib/core/entities/project_entities.py:284-291 | `id` wins over an explicit `uuid`, and `annotation_status` wins over `annotation_status_code`. |
| Entities.RenamedKeeps | src/superannotate/lib/core/entities/project_entities.py:284-291 | Every keyword other than the two renamed ones passes through unchanged. |
| Entities.FromDictIgnoresUnknown | src/superannotate/lib/core/entities/project_entities.py:242-291 | Keywords that are neither a parameter of the image constructor nor a renamed key make no difference. |
| Entities.ImageRoundTrip | src/superannotate/lib/core/entities/project_entities.py:242-312 | `from_dict(**to_dict(e))` gives back every scalar field of an image. Its `meta` comes back as the plain width and height dict. |
| Entities.S3FileDictInverse | src/superannotate/lib/core/entities/project_entities.py:321-322 | An S3 file's dict gives back its id, data and metadata, the data under `bytes`. |
| Entities.ClassDictGroups | src/superannotate/lib/core/entities/project_entities.py:354-362 | A class's dict holds the base fields and its own. `attribute_groups` is `[]` when the groups are None or empty, and the groups otherwise. |
| Entities.CopyClassDict | src/superannotate/lib/core/entities/project_entities.py:346-362 | A copied class keeps its colour, count, name and groups. It clears its id, timestamps and project. |
| Entities.UserDictInverse | src/superannotate/lib/core/entities/project_entities.py:382-390 | A user comes back from its dict. |
| Entities.TeamDictUsers | src/superannotate/lib/core/entities/project_entities.py:416-427 | A team's dict lists its users' dicts in order, with the team type under `type`. Iterating over `users` raises when it is None. |
| Entities.ModelDictOverrides | src/superannotate/lib/core/entities/project_entities.py:471-490 | A model's dict holds its type under `project_type` and spreads its hyper-parameters last. A hyper-parameter overrides a field of the same name, and every other field keeps its value. |

## Left out

- **Files and directories.** Reading files and directories is not modelled: globbing, `rglob`, `folder_names` selection, `json.load` and `json.dump`.
  - The export is given as already parsed annotation files, each with its name, optional parent directory and document.
  - `df_to_annotations` returns its documents and classes list instead of writing them.
- **Shapely.** Shapely is the `Oracle` parameter. Its areas, intersections, distances and validity are not computed.
- **Floats.** Floats are Dafny reals: no rounding, no NaN. `df.astype({"probability": float})` is not modelled.
- **Timestamps.** `pd.to_datetime` on the actor timestamps is an opaque value.
- **Logging.** Logging is not modelled, and neither is `consensus_plot` with `show_plots`.
- **Backend calls.** Backend services and repositories are parameters: `prepare_export`, `get_exports`, and the project and folder lookups.
  - The base-model lookup and everything after the three checks in `CreateModelUseCase.execute` are not modelled: model creation, and uploading and downloading files.
- **Enum values.** `enums.py` is not part of this model. The constants it defines are assumed:
  - `UploadState.EXTERNAL` is 3;
  - `SegmentationStatus.NOT_STARTED` is 1;
  - the `AnnotationStatus` names are the statuses' titles.
- **Use-case framework.** `BaseUseCase` is not part of this model. `is_valid` is taken to run `validate_fuse` and then `validate_only_pinned`, collecting both errors.
- **Error messages.** Errors carry the project type or the check's message, not the full text of each exception.
- UseCases.ConsensusExecute: the images are taken in an arbitrary order of the set of names, so Python's set iteration order is not modelled.
- UseCases.BenchmarkExecute: the same holds for each folder's images.
- Frames.AggregateAttributes: the groups come out in the order their first rows occur. pandas' `groupby` sorts the groups by key. That changes the order of the folders and instances `image_consensus` sees, and so possibly the greedy matching, but not which rows each group holds.
- ModelCreation.ModelRequest.HyperParameters: the dict is held by value. The caller's dict is not mutated through aliasing, and neither is the shared `DEFAULT_HYPER_PARAMETERS` when it is stored and later filled.
- **`image_list`.** `isin` on `image_list` compares image names as strings only.
- Aggregation.ClassTables: classes.json is taken as well-formed. Every entry has a string name, a colour and attribute groups whose attributes have names. The `KeyError` and `TypeError` a malformed classes file raises are not modelled.
- Values.Elements: a `for` loop over a non-empty dict visits its keys in insertion order. The model's dicts do not keep that order, so such a loop is reported as `Malformed`. For `comments`, `instances` and `attributes` the source fails on those keys too. A non-empty dict as `tags` is the one case where the source succeeds: it gives one tag row per key, and the model fails instead.
- Values.UpdatePair: a pair whose key is not a string (an int, a bool, None) fails, though Python sets that key, because the model's dict keys are strings. A two-key dict element fails, because Python reads its keys in insertion order, which the model's dicts do not keep. The model has no tuples.
- **Equality.** `Value` equality is structural. Python's `==`, `set(...)` and pandas' `unique()` and `==` treat `1`, `1.0` and `True` as one value, and the model does not. So Reconstruct.UniqueExact, Frames.GroupKeysExact, the Frames row filters and the folder-id intersection in ModelCreation.RejectionExact keep such cells apart. Only mixed numeric cells are affected.
- Strings.ParseInt: only ASCII whitespace and the digits 0 to 9 are modelled. Python's `int` also accepts other Unicode whitespace and decimal digits.
- Geometry.BuildShape: a `points` string of six or more characters fails as `Malformed`. The source pairs its characters, and whether shapely reads digit characters as numbers depends on its version. Only the vertex count is checked. Three vertices whose first and last are equal do not close into a ring of four points, and GEOS may reject them as well. The model accepts them.

## Findings

| source | as written | input that shows it | evidently intended | confidence | as-written member | corrected member |
|---|---|---|---|---|---|---|
| src/superannotate/lib/core/usecases/models.py:189-202 | Each training path rebinds `projects` to that path's lookup result, then extends it with itself. Only the last path's projects reach the checks. | Training paths `A/f` (a vector project) and `B/g` (a pixel project): the type check sees only pixel projects and accepts the mixed data. | Every training path's projects are collected, so mixed types and External projects are rejected. | not executed | ModelCreation.MixedTrainingAccepted | ModelCreation.CreateModelChecksEveryPath |
| src/superannotate/lib/core/usecases/models.py:204-217 | A test folder is looked up in `projects[0]`, the first accumulated project, not the project its path names. | Training path `A/f`, test path `B/g`: the test id is that of folder `g` of project A (11), not of project B (21). | Each test folder is looked up in its own path's project. | not executed | ModelCreation.TestFolderFromWrongProject | ModelCreation.SelectResolves |

/**
 * The column-major table `annotation_data` that the aggregation fills: one
 * list per column, and `__append_annotation` adds one cell to every column
 * for each record, None where the record has no such key.
 */
module Table {
  import opened Values

  /** A column of the table; `Name` is its key in the source's dict. */
  datatype Key =
    | ImageName
    | ImageHeight
    | ImageWidth
    | ImageStatus
    | ImagePinned
    | InstanceId
    | ClassName
    | AttributeGroupName
    | AttributeName
    | Type
    | Error
    | Locked
    | Visible
    | TrackingId
    | Probability
    | PointLabels
    | Meta
    | ClassColor
    | GroupId
    | CreatedAt
    | CreatorRole
    | CreationType
    | CreatorEmail
    | UpdatedAt
    | UpdatorRole
    | UpdatorEmail
    | FolderName
    | ImageAnnotator
    | ImageQA
    | CommentResolved
    | Tag

  /** The column's name as a string. */
  function Name(k: Key): string {
    match k
    case ImageName => "imageName"
    case ImageHeight => "imageHeight"
    case ImageWidth => "imageWidth"
    case ImageStatus => "imageStatus"
    case ImagePinned => "imagePinned"
    case InstanceId => "instanceId"
    case ClassName => "className"
    case AttributeGroupName => "attributeGroupName"
    case AttributeName => "attributeName"
    case Type => "type"
    case Error => "error"
    case Locked => "locked"
    case Visible => "visible"
    case TrackingId => "trackingId"
    case Probability => "probability"
    case PointLabels => "pointLabels"
    case Meta => "meta"
    case ClassColor => "classColor"
    case GroupId => "groupId"
    case CreatedAt => "createdAt"
    case CreatorRole => "creatorRole"
    case CreationType => "creationType"
    case CreatorEmail => "creatorEmail"
    case UpdatedAt => "updatedAt"
    case UpdatorRole => "updatorRole"
    case UpdatorEmail => "updatorEmail"
    case FolderName => "folderName"
    case ImageAnnotator => "imageAnnotator"
    case ImageQA => "imageQA"
    case CommentResolved => "commentResolved"
    case Tag => "tag"
  }

  /** The columns every aggregated table has, in the order the source declares them. */
  const BASE_COLUMNS: seq<Key> := [
    ImageName, ImageHeight, ImageWidth, ImageStatus, ImagePinned, InstanceId,
    ClassName, AttributeGroupName, AttributeName, Type, Error, Locked,
    Visible, TrackingId, Probability, PointLabels, Meta, ClassColor,
    GroupId, CreatedAt, CreatorRole, CreationType, CreatorEmail, UpdatedAt,
    UpdatorRole, UpdatorEmail, FolderName, ImageAnnotator, ImageQA
  ]

  /**
   * One row of the aggregated table: a cell per column. A key that the
   * source's annotation_dict lacks is a Null cell here, as `__append_annotation`
   * stores None for it.
   */
  datatype Record = Record(
    imageName: Value,
    imageHeight: Value,
    imageWidth: Value,
    imageStatus: Value,
    imagePinned: Value,
    instanceId: Value,
    className: Value,
    attributeGroupName: Value,
    attributeName: Value,
    annotationType: Value,
    error: Value,
    locked: Value,
    visible: Value,
    trackingId: Value,
    probability: Value,
    pointLabels: Value,
    meta: Value,
    classColor: Value,
    groupId: Value,
    createdAt: Value,
    creatorRole: Value,
    creationType: Value,
    creatorEmail: Value,
    updatedAt: Value,
    updatorRole: Value,
    updatorEmail: Value,
    folderName: Value,
    imageAnnotator: Value,
    imageQA: Value,
    commentResolved: Value,
    tag: Value
  )

  /** The record with every cell None. */
  const EMPTY: Record := Record(Null, Null, Null, Null, Null, Null, Null, Null, Null, Null, Null, Null, Null, Null, Null, Null, Null, Null, Null, Null, Null, Null, Null, Null, Null, Null, Null, Null, Null, Null, Null)

  /** The cell of `r` in column `k`. */
  function Cell(r: Record, k: Key): Value {
    match k
    case ImageName => r.imageName
    case ImageHeight => r.imageHeight
    case ImageWidth => r.imageWidth
    case ImageStatus => r.imageStatus
    case ImagePinned => r.imagePinned
    case InstanceId => r.instanceId
    case ClassName => r.className
    case AttributeGroupName => r.attributeGroupName
    case AttributeName => r.attributeName
    case Type => r.annotationType
    case Error => r.error
    case Locked => r.locked
    case Visible => r.visible
    case TrackingId => r.trackingId
    case Probability => r.probability
    case PointLabels => r.pointLabels
    case Meta => r.meta
    case ClassColor => r.classColor
    case GroupId => r.groupId
    case CreatedAt => r.createdAt
    case CreatorRole => r.creatorRole
    case CreationType => r.creationType
    case CreatorEmail => r.creatorEmail
    case UpdatedAt => r.updatedAt
    case UpdatorRole => r.updatorRole
    case UpdatorEmail => r.updatorEmail
    case FolderName => r.folderName
    case ImageAnnotator => r.imageAnnotator
    case ImageQA => r.imageQA
    case CommentResolved => r.commentResolved
    case Tag => r.tag
  }

  /** The columns of a table: the base ones, then `commentResolved` and `tag` when asked for. */
  function Columns(includeComments: bool, includeTags: bool): (cols: seq<Key>)
    ensures CommentResolved in cols <==> includeComments
    ensures Tag in cols <==> includeTags
    ensures ClassName in cols && AttributeGroupName in cols && AttributeName in cols
  {
    var cols := BASE_COLUMNS + (if includeComments then [CommentResolved] else [])
                             + (if includeTags then [Tag] else []);
    assert cols[6] == ClassName && cols[7] == AttributeGroupName && cols[8] == AttributeName;
    assert forall i :: 0 <= i < |BASE_COLUMNS| ==> !BASE_COLUMNS[i].CommentResolved? && !BASE_COLUMNS[i].Tag?;
    cols
  }

  /** A table has every base column and no column besides them and the two optional ones. */
  lemma ColumnsCover(includeComments: bool, includeTags: bool)
    ensures forall k :: k in BASE_COLUMNS ==> k in Columns(includeComments, includeTags)
    ensures forall k :: k in Columns(includeComments, includeTags) ==>
      k in BASE_COLUMNS || k == CommentResolved || k == Tag
  {
  }

  /** The cells one column gets from a sequence of records. */
  function Column(records: seq<Record>, key: Key): (cells: seq<Value>)
    ensures |cells| == |records|
    ensures forall i :: 0 <= i < |records| ==> cells[i] == Cell(records[i], key)
  {
    if records == [] then []
    else Column(records[..|records| - 1], key) + [Cell(records[|records| - 1], key)]
  }

  /** The record built from one cell per column. */
  function FromCells(f: Key -> Value): (r: Record)
    ensures forall k :: Cell(r, k) == f(k)
  {
    Record(f(ImageName), f(ImageHeight), f(ImageWidth), f(ImageStatus), f(ImagePinned), f(InstanceId), f(ClassName),
           f(AttributeGroupName), f(AttributeName), f(Type), f(Error), f(Locked), f(Visible), f(TrackingId),
           f(Probability), f(PointLabels), f(Meta), f(ClassColor), f(GroupId), f(CreatedAt), f(CreatorRole),
           f(CreationType), f(CreatorEmail), f(UpdatedAt), f(UpdatorRole), f(UpdatorEmail), f(FolderName),
           f(ImageAnnotator), f(ImageQA), f(CommentResolved), f(Tag))
  }

  /** Cells that agree in every column build the same record. */
  lemma FromCellsEqual(f: Key -> Value, g: Key -> Value)
    requires forall k :: f(k) == g(k)
    ensures FromCells(f) == FromCells(g)
  {
  }

  /** A record as a frame with columns `keys` holds it: a column the frame lacks reads None. */
  function Project(r: Record, keys: seq<Key>): (p: Record)
    ensures forall k :: k in keys ==> Cell(p, k) == Cell(r, k)
    ensures forall k :: k !in keys ==> Cell(p, k) == Null
  {
    FromCells(k => if k in keys then Cell(r, k) else Null)
  }

  /** `pd.DataFrame(annotation_data)`: the rows of the records, in order, over the table's columns. */
  function FrameOf(records: seq<Record>, keys: seq<Key>): (rows: seq<Record>)
    ensures |rows| == |records|
    ensures forall i :: 0 <= i < |rows| ==> rows[i] == Project(records[i], keys)
  {
    seq(|records|, i requires 0 <= i < |records| => Project(records[i], keys))
  }

  /** Cell `i` of column `k` of a dict of lists, None where there is none. */
  function Pick(data: map<Key, seq<Value>>, k: Key, i: nat): Value {
    if k in data && i < |data[k]| then data[k][i] else Null
  }

  /** Row `i` of a dict of lists holding the records' columns is the record over those columns. */
  lemma RowOfColumns(data: map<Key, seq<Value>>, records: seq<Record>, keys: seq<Key>, i: nat)
    requires forall k :: k in data <==> k in keys
    requires forall k :: k in keys ==> data[k] == Column(records, k)
    requires i < |records|
    ensures FromCells(k => Pick(data, k, i)) == Project(records[i], keys)
  {
    forall k ensures Pick(data, k, i) == if k in keys then Cell(records[i], k) else Null {
      if k in keys {
        assert data[k] == Column(records, k);
      }
    }
    FromCellsEqual(k => Pick(data, k, i), k => if k in keys then Cell(records[i], k) else Null);
  }

  /** The frame of one more record is one more row. */
  lemma FrameNext(records: seq<Record>, keys: seq<Key>, i: nat, rows: seq<Record>, row: Record)
    requires i < |records| && rows == FrameOf(records[..i], keys) && row == Project(records[i], keys)
    ensures rows + [row] == FrameOf(records[..i + 1], keys)
  {
    var next := FrameOf(records[..i + 1], keys);
    forall j | 0 <= j < i + 1 ensures (rows + [row])[j] == next[j] {
      if j < i {
        assert records[..i][j] == records[..i + 1][j];
      }
    }
  }

  class AnnotationData {
    /** The columns, in declaration order (the dict's keys). */
    const keys: seq<Key>
    /** The dict of lists. */
    var data: map<Key, seq<Value>>
    /** The records appended so far, in order. */
    ghost var records: seq<Record>

    ghost predicate Valid()
      reads this
    {
      && (forall k :: k in data <==> k in keys)
      && forall k :: k in keys ==> data[k] == Column(records, k)
    }

    /** Every column holds exactly one cell per appended record. */
    lemma EqualLengths()
      requires Valid()
      ensures forall k :: k in data ==> |data[k]| == |records|
    {
    }

    /** The empty table of the given columns. */
    constructor (includeComments: bool, includeTags: bool)
      ensures Valid()
      ensures keys == Columns(includeComments, includeTags)
      ensures records == []
    {
      var cols := Columns(includeComments, includeTags);
      keys := cols;
      data := map k | k in cols :: [];
      records := [];
    }

    /** `__append_annotation`: one new cell per column, taken from `r`. */
    method Append(r: Record)
      requires Valid()
      modifies this
      ensures Valid()
      ensures records == old(records) + [r]
      ensures data.Keys == old(data.Keys)
      ensures forall k :: k in data ==> data[k] == old(data[k]) + [Cell(r, k)]
    {
      // one pass over the dict's keys, in whatever order the dict yields them
      var todo := data.Keys;
      while todo != {}
        invariant todo <= data.Keys
        invariant data.Keys == old(data.Keys) && records == old(records)
        invariant forall k :: k in data && k !in todo ==> data[k] == old(data[k]) + [Cell(r, k)]
        invariant forall k :: k in todo ==> data[k] == old(data[k])
        decreases todo
      {
        var k :| k in todo;
        data := data[k := data[k] + [Cell(r, k)]];
        todo := todo - {k};
      }
      records := records + [r];
      forall k | k in keys ensures data[k] == Column(records, k) {
        assert records[..|records| - 1] == old(records);
      }
    }

    /** `pd.DataFrame(annotation_data)`: row `i` takes cell `i` of every column. */
    method Frame() returns (rows: seq<Record>)
      requires Valid() && ImageName in keys
      ensures rows == FrameOf(records, keys)
    {
      EqualLengths();
      rows := [];
      for i := 0 to |data[ImageName]|
        invariant i <= |records| && rows == FrameOf(records[..i], keys)
      {
        var d := data;
        var row := FromCells(k => Pick(d, k, i));
        RowOfColumns(d, records, keys, i);
        FrameNext(records, keys, i, rows, row);
        rows := rows + [row];
      }
      assert records[..|records|] == records;
    }
  }
}

/**
 * The SDK's entities: plain records a backend response is read into, their
 * `to_dict` serialisers, `ImageEntity.from_dict` and the `__copy__`
 * methods that clone an entity into a new, unsaved one. Every field is a
 * dynamic `Value`, as the Python attributes are; a constructor argument
 * left out is `None` unless the source gives another default.
 */
module Entities {
  import opened Values

  /** `enums.py` is not part of this model; `SegmentationStatus.NOT_STARTED.value` is taken as 1. */
  const SEGMENTATION_NOT_STARTED: Value := Int(1)

  /** `UploadState.EXTERNAL.value`, taken as 3: a project whose images are attached by URL. */
  const UPLOAD_EXTERNAL: Value := Int(3)

  // ----- BaseTimedEntity and ConfigEntity -----

  /** The fields every timed entity inherits from `BaseTimedEntity`. */
  datatype Timed = Timed(uuid: Value, createdAt: Value, updatedAt: Value)

  const UNSAVED := Timed(Null, Null, Null)

  function TimedDict(t: Timed): (d: map<string, Value>)
    ensures d.Keys == {"id", "createdAt", "updatedAt"}
    ensures d["id"] == t.uuid && d["createdAt"] == t.createdAt && d["updatedAt"] == t.updatedAt
  {
    map["id" := t.uuid, "createdAt" := t.createdAt, "updatedAt" := t.updatedAt]
  }

  /** A subclass's own fields spread after the base ones leave the base fields as they are, unless they repeat them. */
  lemma TimedKept(t: Timed, own: map<string, Value>)
    requires "createdAt" !in own && "updatedAt" !in own && ("id" in own ==> own["id"] == t.uuid)
    ensures forall k :: k in TimedDict(t) ==> k in TimedDict(t) + own && (TimedDict(t) + own)[k] == TimedDict(t)[k]
  {
  }

  datatype Config = Config(uuid: Value, value: Value)

  /** `ConfigEntity.to_dict`: the entry's uuid under `key` and its value. */
  function ConfigDict(c: Config): (d: map<string, Value>)
    ensures d.Keys == {"key", "value"}
  {
    map["key" := c.uuid, "value" := c.value]
  }

  /** A configuration entry is its dict: `key` and `value` give the entry back. */
  lemma ConfigDictInverse(c: Config)
    ensures ConfigDict(c).Keys == {"key", "value"}
    ensures Config(ConfigDict(c)["key"], ConfigDict(c)["value"]) == c
  {
  }

  // ----- ProjectEntity, ProjectSettingEntity, WorkflowEntity -----

  datatype Project = Project(
    timed: Timed, teamId: Value, name: Value, projectType: Value, description: Value,
    attachmentName: Value, attachmentPath: Value, creatorId: Value, entropyStatus: Value,
    sharingStatus: Value, status: Value, folderId: Value, uploadState: Value, users: Value,
    contributors: Value, settings: Value, annotationClasses: Value, workflow: Value,
    completedImagesCount: Value, rootFolderCompletedImagesCount: Value)

  /** `ProjectEntity(...)` with the arguments `__copy__` passes; `users` defaults to the empty tuple. */
  function NewProject(teamId: Value, name: Value, projectType: Value, description: Value, status: Value,
                      folderId: Value, users: Value, uploadState: Value): Project
  {
    Project(UNSAVED, teamId, name, projectType, description, Null, Null, Null, Null, Null, status, folderId,
            uploadState, users, Null, Null, Null, Null, Null, Null)
  }

  function CopyProject(p: Project): Project {
    NewProject(p.teamId, p.name, p.projectType, p.description, p.status, p.folderId, p.users, p.uploadState)
  }

  /**
   * A copy keeps the team, name, type, description, status, folder, users
   * and upload state, and clears the id, the timestamps and every other field.
   */
  lemma CopyProjectKeeps(p: Project)
    ensures var c := CopyProject(p);
      && c.teamId == p.teamId && c.name == p.name && c.projectType == p.projectType
      && c.description == p.description && c.status == p.status && c.folderId == p.folderId
      && c.users == p.users && c.uploadState == p.uploadState
      && c.timed == Timed(Null, Null, Null)
      && c.attachmentName == Null && c.attachmentPath == Null && c.creatorId == Null
      && c.entropyStatus == Null && c.sharingStatus == Null && c.contributors == Null
      && c.settings == Null && c.annotationClasses == Null && c.workflow == Null
      && c.completedImagesCount == Null && c.rootFolderCompletedImagesCount == Null
    ensures CopyProject(CopyProject(p)) == CopyProject(p)
  {
  }

  function ProjectOwn(p: Project): map<string, Value> {
    map[
      "team_id" := p.teamId, "name" := p.name, "type" := p.projectType, "description" := p.description,
      "status" := p.status, "attachment_path" := p.attachmentPath, "attachment_name" := p.attachmentName,
      "entropy_status" := p.entropyStatus, "sharing_status" := p.sharingStatus, "creator_id" := p.creatorId,
      "folder_id" := p.folderId, "upload_state" := p.uploadState, "users" := p.users,
      "completed_images_count" := p.completedImagesCount,
      "rootFolderCompletedImagesCount" := p.rootFolderCompletedImagesCount]
  }

  function ProjectDict(p: Project): map<string, Value> {
    TimedDict(p.timed) + ProjectOwn(p)
  }

  /**
   * A project's dict holds the base fields and fifteen of its own;
   * contributors, settings, classes and workflow are not serialised.
   */
  lemma ProjectDictKeys(p: Project)
    ensures ProjectDict(p).Keys == {
      "id", "createdAt", "updatedAt", "team_id", "name", "type", "description", "status",
      "attachment_path", "attachment_name", "entropy_status", "sharing_status", "creator_id",
      "folder_id", "upload_state", "users", "completed_images_count", "rootFolderCompletedImagesCount"}
  {
  }

  /** The project type is serialised under `type`, and the base fields keep their values. */
  lemma ProjectDictFields(p: Project)
    ensures var d := ProjectDict(p);
      && "type" in d && d["type"] == p.projectType
      && forall k :: k in TimedDict(p.timed) ==> k in d && d[k] == TimedDict(p.timed)[k]
  {
    TimedKept(p.timed, ProjectOwn(p));
  }

  datatype ProjectSetting = ProjectSetting(uuid: Value, projectId: Value, attribute: Value, value: Value)

  function CopySetting(s: ProjectSetting): ProjectSetting {
    ProjectSetting(Null, Null, s.attribute, s.value)
  }

  function SettingDict(s: ProjectSetting): map<string, Value> {
    map["id" := s.uuid, "project_id" := s.projectId, "attribute" := s.attribute, "value" := s.value]
  }

  /** A copied setting keeps its attribute and value and belongs to no saved project. */
  lemma CopySettingDict(s: ProjectSetting)
    ensures SettingDict(CopySetting(s)) == SettingDict(s)["id" := Null]["project_id" := Null]
    ensures CopySetting(CopySetting(s)) == CopySetting(s)
  {
  }

  datatype Workflow = Workflow(uuid: Value, projectId: Value, classId: Value, step: Value, tool: Value,
                               attribute: Value)

  function CopyWorkflow(w: Workflow): Workflow {
    Workflow(Null, Null, Null, w.step, w.tool, w.attribute)
  }

  function WorkflowDict(w: Workflow): map<string, Value> {
    map["id" := w.uuid, "project_id" := w.projectId, "class_id" := w.classId, "step" := w.step,
        "tool" := w.tool, "attribute" := w.attribute]
  }

  /** A copied workflow step keeps its step, tool and attribute and clears its ids. */
  lemma CopyWorkflowDict(w: Workflow)
    ensures WorkflowDict(CopyWorkflow(w)) == WorkflowDict(w)["id" := Null]["project_id" := Null]["class_id" := Null]
    ensures CopyWorkflow(CopyWorkflow(w)) == CopyWorkflow(w)
  {
  }

  // ----- FolderEntity -----

  datatype Folder = Folder(timed: Timed, projectId: Value, parentId: Value, teamId: Value, name: Value,
                           folderUsers: Value)

  function FolderOwn(f: Folder): map<string, Value> {
    map["id" := f.timed.uuid, "team_id" := f.teamId, "name" := f.name,
                             "parent_id" := f.parentId, "project_id" := f.projectId, "folder_users" := f.folderUsers]
  }

  function FolderDict(f: Folder): map<string, Value> {
    TimedDict(f.timed) + FolderOwn(f)
  }

  /** A folder's dict repeats `id`, which changes nothing, and adds its own five fields to the base ones. */
  lemma FolderDictKeys(f: Folder)
    ensures FolderDict(f).Keys == {"id", "createdAt", "updatedAt", "team_id", "name", "parent_id", "project_id",
                                   "folder_users"}
    ensures FolderDict(f)["id"] == f.timed.uuid
    ensures forall k :: k in TimedDict(f.timed) ==> FolderDict(f)[k] == TimedDict(f.timed)[k]
  {
    TimedKept(f.timed, FolderOwn(f));
  }

  // ----- ImageInfoEntity and ImageEntity -----

  datatype ImageInfo = ImageInfo(uuid: Value, width: Value, height: Value)

  function ImageInfoDict(i: ImageInfo): map<string, Value> {
    map["width" := i.width, "height" := i.height]
  }

  /** An image's `meta`: an `ImageInfoEntity`, or whatever value `from_dict` was given. */
  datatype Meta = InfoMeta(info: ImageInfo) | RawMeta(raw: Value)

  datatype Image = Image(
    uuid: Value, name: Value, path: Value, projectId: Value, teamId: Value, annotationStatusCode: Value,
    folderId: Value, annotatorId: Value, annotatorName: Value, qaId: Value, qaName: Value,
    entropyValue: Value, approvalStatus: Value, isPinned: Value, segmentationStatus: Value,
    predictionStatus: Value, meta: Meta)

  /** `kwargs.get(k)` with the constructor's default. */
  function Arg(kwargs: map<string, Value>, k: string, default: Value): Value {
    if k in kwargs then kwargs[k] else default
  }

  /** `ImageEntity(**kwargs)`: each parameter from its keyword or its default; other keywords go to `**_`. */
  function ImageOf(kwargs: map<string, Value>): Image {
    Image(Arg(kwargs, "uuid", Null), Arg(kwargs, "name", Null), Arg(kwargs, "path", Null),
          Arg(kwargs, "project_id", Null), Arg(kwargs, "team_id", Null),
          Arg(kwargs, "annotation_status_code", Null), Arg(kwargs, "folder_id", Null),
          Arg(kwargs, "annotator_id", Null), Arg(kwargs, "annotator_name", Null), Arg(kwargs, "qa_id", Null),
          Arg(kwargs, "qa_name", Null), Arg(kwargs, "entropy_value", Null), Arg(kwargs, "approval_status", Null),
          Arg(kwargs, "is_pinned", Null), Arg(kwargs, "segmentation_status", SEGMENTATION_NOT_STARTED),
          Arg(kwargs, "prediction_status", SEGMENTATION_NOT_STARTED),
          if "meta" in kwargs then RawMeta(kwargs["meta"]) else InfoMeta(ImageInfo(Null, Null, Null)))
  }

  /** The keyword parameters of `ImageEntity`. */
  const IMAGE_PARAMETERS: set<string> := {
    "uuid", "name", "path", "project_id", "team_id", "annotation_status_code", "folder_id", "annotator_id",
    "annotator_name", "qa_id", "qa_name", "entropy_value", "approval_status", "is_pinned",
    "segmentation_status", "prediction_status", "meta"}

  /** `from_dict`'s renaming: `id` becomes `uuid` and `annotation_status` becomes `annotation_status_code`. */
  function Renamed(kwargs: map<string, Value>): (r: map<string, Value>)
    ensures "id" !in r && "annotation_status" !in r
    ensures "id" in kwargs ==> "uuid" in r && r["uuid"] == kwargs["id"]
    ensures "annotation_status" in kwargs ==>
      "annotation_status_code" in r && r["annotation_status_code"] == kwargs["annotation_status"]
    ensures forall k :: k in r ==> k in kwargs || k == "uuid" || k == "annotation_status_code"
  {
    var a := if "id" in kwargs then (kwargs["uuid" := kwargs["id"]] - {"id"}) else kwargs;
    if "annotation_status" in a then a["annotation_status_code" := a["annotation_status"]] - {"annotation_status"}
    else a
  }

  /** Every other keyword passes through the renaming unchanged. */
  lemma RenamedKeeps(kwargs: map<string, Value>, k: string)
    requires k != "id" && k != "uuid" && k != "annotation_status" && k != "annotation_status_code"
    ensures k in Renamed(kwargs) <==> k in kwargs
    ensures k in kwargs ==> Renamed(kwargs)[k] == kwargs[k]
  {
  }

  function ImageFromDict(kwargs: map<string, Value>): Image {
    ImageOf(Renamed(kwargs))
  }

  /** Keywords that are no parameter of `ImageEntity` and no renamed key make no difference. */
  lemma FromDictIgnoresUnknown(kwargs: map<string, Value>, k: string, v: Value)
    requires k !in IMAGE_PARAMETERS && k != "id" && k != "annotation_status"
    ensures ImageFromDict(kwargs[k := v]) == ImageFromDict(kwargs)
  {
    var r, r' := Renamed(kwargs), Renamed(kwargs[k := v]);
    forall p | p in IMAGE_PARAMETERS ensures (p in r <==> p in r') && (p in r ==> r[p] == r'[p]) {
    }
  }

  /** `id` wins over an explicit `uuid`, and `annotation_status` over `annotation_status_code`. */
  lemma FromDictRenames(kwargs: map<string, Value>)
    ensures "id" in kwargs ==> ImageFromDict(kwargs).uuid == kwargs["id"]
    ensures "id" !in kwargs ==> ImageFromDict(kwargs).uuid == Arg(kwargs, "uuid", Null)
    ensures "annotation_status" in kwargs ==> ImageFromDict(kwargs).annotationStatusCode == kwargs["annotation_status"]
  {
  }

  /** `to_dict` of an image; `self.meta.to_dict()` raises when `meta` is not an `ImageInfoEntity`. */
  function ImageDict(e: Image): (r: Result<map<string, Value>>)
    ensures r.Success? <==> e.meta.InfoMeta?
    ensures r.Failure? ==> r.error == Malformed
  {
    if !e.meta.InfoMeta? then Failure(Malformed)
    else Success(map[
      "id" := e.uuid, "team_id" := e.teamId, "name" := e.name, "path" := e.path, "project_id" := e.projectId,
      "annotation_status" := e.annotationStatusCode, "folder_id" := e.folderId, "qa_id" := e.qaId,
      "qa_name" := e.qaName, "entropy_value" := e.entropyValue, "approval_status" := e.approvalStatus,
      "annotator_id" := e.annotatorId, "annotator_name" := e.annotatorName, "is_pinned" := e.isPinned,
      "segmentation_status" := e.segmentationStatus, "prediction_status" := e.predictionStatus,
      "meta" := Dict(ImageInfoDict(e.meta.info))])
  }

  /** The keywords `from_dict` passes on for a serialised image. */
  function ImageArgs(e: Image): map<string, Value>
    requires e.meta.InfoMeta?
  {
    Renamed(ImageDict(e).value)
  }

  /** The two renamed keys come back under the constructor's names. */
  lemma ImageArgsRenamed(e: Image)
    requires e.meta.InfoMeta?
    ensures Arg(ImageArgs(e), "uuid", Null) == e.uuid
    ensures Arg(ImageArgs(e), "annotation_status_code", Null) == e.annotationStatusCode
  {
  }

  lemma ImageArgsNames(e: Image)
    requires e.meta.InfoMeta?
    ensures var r := ImageArgs(e);
      Arg(r, "name", Null) == e.name && Arg(r, "path", Null) == e.path && Arg(r, "project_id", Null) == e.projectId
  {
  }

  lemma ImageArgsOwners(e: Image)
    requires e.meta.InfoMeta?
    ensures var r := ImageArgs(e);
      Arg(r, "team_id", Null) == e.teamId && Arg(r, "folder_id", Null) == e.folderId && Arg(r, "annotator_id", Null) == e.annotatorId
  {
  }

  lemma ImageArgsReviewers(e: Image)
    requires e.meta.InfoMeta?
    ensures var r := ImageArgs(e);
      Arg(r, "annotator_name", Null) == e.annotatorName && Arg(r, "qa_id", Null) == e.qaId && Arg(r, "qa_name", Null) == e.qaName
  {
  }

  lemma ImageArgsReview(e: Image)
    requires e.meta.InfoMeta?
    ensures var r := ImageArgs(e);
      Arg(r, "entropy_value", Null) == e.entropyValue && Arg(r, "approval_status", Null) == e.approvalStatus && Arg(r, "is_pinned", Null) == e.isPinned
  {
  }

  lemma ImageArgsProgress(e: Image)
    requires e.meta.InfoMeta?
    ensures var r := ImageArgs(e);
      Arg(r, "segmentation_status", SEGMENTATION_NOT_STARTED) == e.segmentationStatus && Arg(r, "prediction_status", SEGMENTATION_NOT_STARTED) == e.predictionStatus
      && "meta" in r && r["meta"] == Dict(ImageInfoDict(e.meta.info))
  {
  }

  /**
   * `from_dict(**to_dict(e))` gives back every scalar field of `e`; its
   * `meta` comes back as the plain dict `{"width", "height"}`, whose own
   * `to_dict` then raises.
   */
  lemma ImageRoundTrip(e: Image)
    requires e.meta.InfoMeta?
    ensures ImageDict(e).Success?
    ensures ImageFromDict(ImageDict(e).value) == e.(meta := RawMeta(Dict(ImageInfoDict(e.meta.info))))
    ensures ImageDict(ImageFromDict(ImageDict(e).value)).Failure?
  {
    ImageArgsRenamed(e);
    ImageArgsNames(e);
    ImageArgsOwners(e);
    ImageArgsReviewers(e);
    ImageArgsReview(e);
    ImageArgsProgress(e);
  }

  // ----- S3FileEntity, AnnotationClassEntity, UserEntity, TeamEntity -----

  datatype S3File = S3File(uuid: Value, data: Value, metadata: Value)

  function S3FileDict(f: S3File): map<string, Value> {
    map["uuid" := f.uuid, "bytes" := f.data, "metadata" := f.metadata]
  }

  /** An S3 file's dict names its payload `bytes`. */
  lemma S3FileDictInverse(f: S3File)
    ensures S3FileDict(f).Keys == {"uuid", "bytes", "metadata"}
    ensures S3File(S3FileDict(f)["uuid"], S3FileDict(f)["bytes"], S3FileDict(f)["metadata"]) == f
  {
  }

  datatype AnnotationClass = AnnotationClass(timed: Timed, color: Value, count: Value, name: Value,
                                             projectId: Value, attributeGroups: Value)

  function CopyClass(c: AnnotationClass): AnnotationClass {
    AnnotationClass(UNSAVED, c.color, c.count, c.name, Null, c.attributeGroups)
  }

  function ClassOwn(c: AnnotationClass): map<string, Value> {
    map["color" := c.color, "count" := c.count, "name" := c.name,
                             "project_id" := c.projectId,
                             "attribute_groups" := if Truthy(c.attributeGroups) then c.attributeGroups else List([])]
  }

  function ClassDict(c: AnnotationClass): map<string, Value> {
    TimedDict(c.timed) + ClassOwn(c)
  }

  /**
   * A class's dict holds the base fields and its own; `attribute_groups` is
   * `[]` when the groups are None or empty and the groups otherwise.
   */
  lemma ClassDictGroups(c: AnnotationClass)
    ensures ClassDict(c).Keys == {"id", "createdAt", "updatedAt", "color", "count", "name", "project_id",
                                  "attribute_groups"}
    ensures c.attributeGroups == Null || c.attributeGroups == List([]) ==> ClassDict(c)["attribute_groups"] == List([])
    ensures c.attributeGroups.List? && c.attributeGroups.items != [] ==>
      ClassDict(c)["attribute_groups"] == c.attributeGroups
  {
  }

  /** A copied class keeps its colour, count, name and groups, and clears its id, timestamps and project. */
  lemma CopyClassDict(c: AnnotationClass)
    ensures ClassDict(CopyClass(c)) ==
      ClassDict(c)["id" := Null]["createdAt" := Null]["updatedAt" := Null]["project_id" := Null]
    ensures CopyClass(CopyClass(c)) == CopyClass(c)
  {
  }

  datatype User = User(uuid: Value, firstName: Value, lastName: Value, email: Value, picture: Value,
                       userRole: Value)

  function UserDict(u: User): map<string, Value> {
    map["id" := u.uuid, "first_name" := u.firstName, "last_name" := u.lastName, "email" := u.email,
        "picture" := u.picture, "user_role" := u.userRole]
  }

  /** A user is its dict: each field comes back from its key. */
  lemma UserDictInverse(u: User)
    ensures var d := UserDict(u);
      User(d["id"], d["first_name"], d["last_name"], d["email"], d["picture"], d["user_role"]) == u
  {
  }

  /** A team; its `users` is a list of user entities, or None. */
  datatype Team = Team(uuid: Value, name: Value, description: Value, teamType: Value, userRole: Value,
                       isDefault: Value, users: Option<seq<User>>, pendingInvitations: Value, creatorId: Value)

  function UserDicts(users: seq<User>): (r: seq<Value>)
    ensures |r| == |users|
    ensures forall i :: 0 <= i < |users| ==> r[i] == Dict(UserDict(users[i]))
  {
    seq(|users|, i requires 0 <= i < |users| => Dict(UserDict(users[i])))
  }

  /** `to_dict` of a team; iterating over `users` raises when it is None. */
  function TeamDict(t: Team): (r: Result<map<string, Value>>)
    ensures r.Success? <==> t.users.Some?
  {
    if t.users.None? then Failure(Malformed)
    else Success(map["id" := t.uuid, "name" := t.name, "description" := t.description, "type" := t.teamType,
                     "user_role" := t.userRole, "is_default" := t.isDefault,
                     "users" := List(UserDicts(t.users.value)), "pending_invitations" := t.pendingInvitations,
                     "creator_id" := t.creatorId])
  }

  /** A team's dict lists its users' dicts in order, the team type under `type`. */
  lemma TeamDictUsers(t: Team)
    requires t.users.Some?
    ensures var d := TeamDict(t).value;
      && d["type"] == t.teamType && d["users"].List? && |d["users"].items| == |t.users.value|
      && forall i :: 0 <= i < |t.users.value| ==> d["users"].items[i] == Dict(UserDict(t.users.value[i]))
  {
  }

  // ----- MLModelEntity -----

  datatype MLModel = MLModel(
    timed: Timed, teamId: Value, name: Value, path: Value, configPath: Value, modelType: Value,
    description: Value, outputPath: Value, task: Value, baseModelId: Value, imageCount: Value,
    trainingStatus: Value, testFolderIds: Value, trainFolderIds: Value, isTrainable: Value, isGlobal: Value,
    hyperParameters: map<string, Value>)

  /** The fields of a model's dict before its hyper-parameters are spread over them. */
  function ModelOwn(m: MLModel): map<string, Value> {
    map[
      "name" := m.name, "team_id" := m.teamId, "description" := m.description, "task" := m.task,
      "project_type" := m.modelType, "path" := m.path, "config_path" := m.configPath,
      "output_path" := m.outputPath, "base_model_id" := m.baseModelId, "image_count" := m.imageCount,
      "training_status" := m.trainingStatus, "test_folder_ids" := m.testFolderIds,
      "train_folder_ids" := m.trainFolderIds, "is_trainable" := m.isTrainable, "is_global" := m.isGlobal]
  }

  function ModelFields(m: MLModel): map<string, Value> {
    TimedDict(m.timed) + ModelOwn(m)
  }

  function ModelDict(m: MLModel): map<string, Value> {
    ModelFields(m) + m.hyperParameters
  }

  /**
   * A model's dict holds its type under `project_type`, and its
   * hyper-parameters spread last: a hyper-parameter overrides a field of
   * the same name, and every other field keeps its value.
   */
  lemma ModelDictOverrides(m: MLModel)
    ensures ModelDict(m).Keys == ModelFields(m).Keys + m.hyperParameters.Keys
    ensures forall k :: k in m.hyperParameters ==> ModelDict(m)[k] == m.hyperParameters[k]
    ensures forall k :: k in ModelFields(m) && k !in m.hyperParameters ==> ModelDict(m)[k] == ModelFields(m)[k]
    ensures "project_type" !in m.hyperParameters ==> ModelDict(m)["project_type"] == m.modelType
  {
  }

  /** A class's and a model's dicts carry the base id and timestamps; a model's unless a hyper-parameter overrides them. */
  lemma TimedDicts(c: AnnotationClass, m: MLModel)
    ensures forall k :: k in TimedDict(c.timed) ==> k in ClassDict(c) && ClassDict(c)[k] == TimedDict(c.timed)[k]
    ensures forall k :: k in TimedDict(m.timed) && k !in m.hyperParameters ==>
      k in ModelDict(m) && ModelDict(m)[k] == TimedDict(m.timed)[k]
  {
    TimedKept(c.timed, ClassOwn(c));
    TimedKept(m.timed, ModelOwn(m));
  }
}

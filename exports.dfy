/**
 * Preparing and listing a project's exports: `PrepareExportUseCase` checks
 * its flags against the project, fills in the default annotation
 * statuses and asks the backend for an export; `GetExportsUseCase` lists
 * the exports, by name unless their metadata is wanted. The backend is a
 * parameter of the model.
 */
module Exports {
  import opened Values
  import opened Entities

  /**
   * The annotation statuses an export covers when none are chosen, as the
   * `name`s of the `AnnotationStatus` members IN_PROGRESS, COMPLETED,
   * QUALITY_CHECK, RETURNED, NOT_STARTED and SKIPPED; `enums.py` is not
   * part of this model, and each name is taken as the member's title.
   */
  const DEFAULT_STATUSES: seq<string> := ["InProgress", "Completed", "QualityCheck", "Returned", "NotStarted", "Skipped"]

  /** The validation errors of `PrepareExportUseCase`, each carrying the project type its message names. */
  datatype ExportIssue = FuseNotSupported(projectType: Value) | PinNotSupported(projectType: Value)

  /** The arguments `prepare_export` is called with. */
  datatype ExportRequest = ExportRequest(
    projectId: Value, teamId: Value, folders: Option<seq<string>>, statuses: seq<string>,
    includeFuse: bool, onlyPinned: bool)

  /** The backend's `prepare_export`, which this model does not see. */
  type Backend = ExportRequest -> map<string, Value>

  /** What the use case's response holds: the validation errors, or the backend's answer. */
  datatype Prepared = Rejected(issues: seq<ExportIssue>) | Prepared(data: map<string, Value>)

  /** `is_external` in the validators: the project's images are attached by URL. */
  predicate External(project: Project) {
    project.uploadState == UPLOAD_EXTERNAL
  }

  /** The use case's validators, `validate_fuse` then `validate_only_pinned`, each adding its error. */
  function ExportIssues(project: Project, includeFuse: bool, onlyPinned: bool): (issues: seq<ExportIssue>)
    ensures |issues| <= 2
  {
    (if External(project) && includeFuse then [FuseNotSupported(project.projectType)] else [])
    + (if External(project) && onlyPinned then [PinNotSupported(project.projectType)] else [])
  }

  /** The validators reject fuse and pinned-only exports of an External project, and nothing else. */
  lemma ExportIssuesExact(project: Project, includeFuse: bool, onlyPinned: bool)
    ensures var issues := ExportIssues(project, includeFuse, onlyPinned);
      && (issues == [] <==> !External(project) || (!includeFuse && !onlyPinned))
      && (FuseNotSupported(project.projectType) in issues <==> External(project) && includeFuse)
      && (PinNotSupported(project.projectType) in issues <==> External(project) && onlyPinned)
      && forall i :: 0 <= i < |issues| ==> issues[i].projectType == project.projectType
  {
  }

  /** The request `execute` sends once the validators pass. */
  function ExportRequestOf(project: Project, folderNames: Option<seq<string>>, includeFuse: bool, onlyPinned: bool,
                           statuses: Option<seq<string>>): ExportRequest
  {
    ExportRequest(
      project.timed.uuid, project.teamId,
      if folderNames.Some? && folderNames.value != [] then folderNames else None,
      if statuses.Some? && statuses.value != [] then statuses.value else DEFAULT_STATUSES,
      if External(project) then false else includeFuse,
      onlyPinned)
  }

  /**
   * `execute`: the validation errors if there are any; otherwise the
   * backend's response, which raises when it holds an `error` and when it
   * lacks the `name` the log line reads.
   */
  function PrepareExport(project: Project, folderNames: Option<seq<string>>, backend: Backend, includeFuse: bool,
                         onlyPinned: bool, statuses: Option<seq<string>>): (r: Result<Prepared>)
    ensures r.Success? && r.value.Rejected? ==> r.value.issues != []
  {
    var issues := ExportIssues(project, includeFuse, onlyPinned);
    if issues != [] then Success(Rejected(issues))
    else
      var response := backend(ExportRequestOf(project, folderNames, includeFuse, onlyPinned, statuses));
      if "error" in response then Failure(Backend(response["error"]))
      else if "name" !in response then Failure(Malformed)
      else Success(Prepared(response))
  }

  /**
   * An export is rejected exactly when the project is External and fuse or
   * pinned-only output is asked for; otherwise the backend is asked, and
   * its answer is the result unless it reports an error.
   */
  lemma PrepareExportOutcome(project: Project, folderNames: Option<seq<string>>, backend: Backend, includeFuse: bool,
                             onlyPinned: bool, statuses: Option<seq<string>>)
    ensures var r := PrepareExport(project, folderNames, backend, includeFuse, onlyPinned, statuses);
      var response := backend(ExportRequestOf(project, folderNames, includeFuse, onlyPinned, statuses));
      && (r.Success? && r.value.Rejected? <==> External(project) && (includeFuse || onlyPinned))
      && (!(External(project) && (includeFuse || onlyPinned)) ==>
            (if "error" in response then r == Failure(Backend(response["error"]))
             else if "name" in response then r == Success(Prepared(response))
             else r == Failure(Malformed)))
  {
    ExportIssuesExact(project, includeFuse, onlyPinned);
  }

  /**
   * The request asks for the six default statuses when none are given, for
   * no folder filter when no folders are given, and never for fuse output
   * of an External project; the other arguments pass through.
   */
  lemma ExportRequestDefaults(project: Project, folderNames: Option<seq<string>>, includeFuse: bool, onlyPinned: bool,
                              statuses: Option<seq<string>>)
    ensures var q := ExportRequestOf(project, folderNames, includeFuse, onlyPinned, statuses);
      && (statuses.None? || statuses == Some([]) ==> q.statuses == DEFAULT_STATUSES)
      && (statuses.Some? && statuses.value != [] ==> q.statuses == statuses.value)
      && (q.folders.None? <==> folderNames.None? || folderNames == Some([]))
      && (q.folders.Some? ==> q.folders == folderNames)
      && (External(project) ==> !q.includeFuse)
      && q.onlyPinned == onlyPinned && q.projectId == project.timed.uuid && q.teamId == project.teamId
  {
  }

  /**
   * Forcing `include_fuse` off for an External project changes nothing:
   * the validators have already rejected such a request, so every request
   * that reaches the backend carries the caller's flag.
   */
  lemma ForcedFuseIsRedundant(project: Project, folderNames: Option<seq<string>>, includeFuse: bool, onlyPinned: bool,
                              statuses: Option<seq<string>>)
    requires ExportIssues(project, includeFuse, onlyPinned) == []
    ensures ExportRequestOf(project, folderNames, includeFuse, onlyPinned, statuses).includeFuse == includeFuse
  {
    ExportIssuesExact(project, includeFuse, onlyPinned);
  }

  /** `i["name"]`: an export listing entry that is a dict with a name. */
  predicate Named(v: Value) {
    v.Dict? && "name" in v.fields
  }

  /** `[i["name"] for i in data]`, which raises on the first entry without a name. */
  function ExportNames(data: seq<Value>): (r: Result<seq<Value>>)
    ensures r.Success? <==> forall i :: 0 <= i < |data| ==> Named(data[i])
    ensures r.Success? ==> |r.value| == |data| && forall i :: 0 <= i < |data| ==> r.value[i] == data[i].fields["name"]
    ensures r.Failure? ==> r.error == Malformed
  {
    if data == [] then Success([])
    else
      var front := data[..|data| - 1];
      var last := data[|data| - 1];
      match ExportNames(front)
      case Failure(e) => Failure(e)
      case Success(names) =>
        if !Named(last) then Failure(Malformed) else Success(names + [last.fields["name"]])
  }

  /** `GetExportsUseCase.execute` on the backend's listing: the entries themselves, or only their names. */
  function GetExports(data: seq<Value>, returnMetadata: bool): (r: Result<Value>)
  {
    if returnMetadata then Success(List(data))
    else
      var names :- ExportNames(data);
      Success(List(names))
  }

  /**
   * With metadata the listing comes back unchanged; without, it is the list
   * of the entries' names in order, and it fails when an entry has none.
   */
  lemma GetExportsProjects(data: seq<Value>, returnMetadata: bool)
    ensures returnMetadata ==> GetExports(data, returnMetadata) == Success(List(data))
    ensures !returnMetadata ==>
      (GetExports(data, returnMetadata).Success? <==> forall i :: 0 <= i < |data| ==> Named(data[i]))
    ensures !returnMetadata && GetExports(data, returnMetadata).Success? ==>
      var names := GetExports(data, returnMetadata).value;
      names.List? && |names.items| == |data| &&
      forall i :: 0 <= i < |data| ==> names.items[i] == data[i].fields["name"]
  {
  }
}

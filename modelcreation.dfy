/**
 * `CreateModelUseCase` up to the point where it calls the backend: the
 * hyper-parameters it fills in from the defaults, the `project/folder`
 * paths it splits, the folder ids it gathers for training and testing,
 * and the three checks that stop it with an error. The project and folder
 * repositories are parameters of the model.
 */
module ModelCreation {
  import opened Values
  import opened Strings
  import opened Entities

  // ----- hyper-parameters -----

  /** The keys of `DEFAULT_HYPER_PARAMETERS`, in the order the dict literal lists them. */
  const DEFAULT_KEYS: seq<string> := [
    "instance_type", "num_epochs", "dataset_split_ratio", "base_lr", "gamma", "images_per_batch",
    "batch_per_image", "steps", "evaluation_period", "runtime_seconds", "estimated_remaining_time", "template_id"]

  const DEFAULT_HYPER_PARAMETERS: map<string, Value> := map[
    "instance_type" := Str("1 x T4 16 GB"), "num_epochs" := Int(12), "dataset_split_ratio" := Int(80),
    "base_lr" := Num(0.02), "gamma" := Num(0.5), "images_per_batch" := Int(4), "batch_per_image" := Int(512),
    "steps" := List([Int(5)]), "evaluation_period" := Int(12), "runtime_seconds" := Int(600),
    "estimated_remaining_time" := Int(600), "template_id" := Null]

  /** The key list and the dict agree. */
  lemma DefaultKeysListed()
    ensures forall i :: 0 <= i < |DEFAULT_KEYS| ==> DEFAULT_KEYS[i] in DEFAULT_HYPER_PARAMETERS
    ensures forall k :: k in DEFAULT_HYPER_PARAMETERS ==> k in DEFAULT_KEYS
  {
  }

  /**
   * The hyper-parameters a model is trained with: the caller's, each kept
   * as given, completed with the default of every parameter they do not
   * set; the defaults alone when the caller gives none or an empty dict.
   */
  function Filled(given: Option<map<string, Value>>): map<string, Value> {
    if given.Some? && given.value != map[] then
      map k | k in given.value.Keys + DEFAULT_HYPER_PARAMETERS.Keys ::
        if k in given.value then given.value[k] else DEFAULT_HYPER_PARAMETERS[k]
    else DEFAULT_HYPER_PARAMETERS
  }

  /**
   * The caller's parameters are all kept with their values, every default
   * they leave out is added, and nothing else; without caller parameters
   * the defaults are used as they are.
   */
  lemma FilledMeaning(given: Option<map<string, Value>>)
    ensures given.None? || given == Some(map[]) ==> Filled(given) == DEFAULT_HYPER_PARAMETERS
    ensures given.Some? && given.value != map[] ==>
      && Filled(given).Keys == given.value.Keys + DEFAULT_HYPER_PARAMETERS.Keys
      && (forall k :: k in given.value ==> Filled(given)[k] == given.value[k])
      && (forall k :: k in DEFAULT_HYPER_PARAMETERS && k !in given.value ==>
            Filled(given)[k] == DEFAULT_HYPER_PARAMETERS[k])
  {
  }

  /** Filling in is idempotent: filled parameters have every default key already. */
  lemma FilledIdempotent(given: Option<map<string, Value>>)
    ensures Filled(Some(Filled(given))) == Filled(given)
  {
    var f := Filled(given);
    assert f != map[] by { assert "template_id" in f; }
    assert DEFAULT_HYPER_PARAMETERS.Keys <= f.Keys;
  }

  /** The loop of `hyper_parameters`: each key of `keys` that `given` lacks is added with its default. */
  method FillMissing(given: map<string, Value>, keys: seq<string>, defaults: map<string, Value>)
    returns (m: map<string, Value>)
    requires forall i :: 0 <= i < |keys| ==> keys[i] in defaults
    ensures m.Keys == given.Keys + (set j | 0 <= j < |keys| :: keys[j])
    ensures forall k :: k in m ==> m[k] == if k in given then given[k] else defaults[k]
  {
    m := given;
    for i := 0 to |keys|
      invariant m.Keys == given.Keys + (set j | 0 <= j < i :: keys[j])
      invariant forall k :: k in m ==> m[k] == if k in given then given[k] else defaults[k]
    {
      var parameter := keys[i];
      if parameter !in m {
        m := m[parameter := defaults[parameter]];
      }
    }
  }

  /** Filling in every default key gives `Filled`. */
  lemma FilledFromKeys(given: map<string, Value>, m: map<string, Value>)
    requires given != map[]
    requires m.Keys == given.Keys + (set j | 0 <= j < |DEFAULT_KEYS| :: DEFAULT_KEYS[j])
    requires forall k :: k in m ==> m[k] == if k in given then given[k] else DEFAULT_HYPER_PARAMETERS[k]
    ensures m == Filled(Some(given))
  {
    DefaultKeysListed();
    forall k | k in DEFAULT_HYPER_PARAMETERS ensures k in m {
      var j :| 0 <= j < |DEFAULT_KEYS| && DEFAULT_KEYS[j] == k;
    }
  }

  /** `CreateModelUseCase` with only the state `hyper_parameters` reads and writes. */
  class ModelRequest {
    var hyperParameters: Option<map<string, Value>>

    constructor(hyperParameters: Option<map<string, Value>>)
      ensures this.hyperParameters == hyperParameters
    {
      this.hyperParameters := hyperParameters;
    }

    /**
     * The `hyper_parameters` property: it adds every missing default to the
     * caller's dict, or replaces a missing or empty dict by the defaults,
     * and returns what it stored.
     */
    method HyperParameters() returns (r: map<string, Value>)
      modifies this
      ensures hyperParameters == Some(r)
      ensures r == Filled(old(hyperParameters))
    {
      if hyperParameters.Some? && hyperParameters.value != map[] {
        var given := hyperParameters.value;
        DefaultKeysListed();
        var m := FillMissing(given, DEFAULT_KEYS, DEFAULT_HYPER_PARAMETERS);
        FilledFromKeys(given, m);
        hyperParameters := Some(m);
        r := m;
      } else {
        hyperParameters := Some(DEFAULT_HYPER_PARAMETERS);
        r := DEFAULT_HYPER_PARAMETERS;
      }
    }
  }

  // ----- split_path -----

  /** `split_path` with the unpacking `execute` does: `project/folder`, or a project's root folder. */
  function SplitPath(path: string): Result<(string, string)> {
    if Contains(path, "/") then
      var parts := Split(path, "/");
      if |parts| == 2 then Success((parts[0], parts[1])) else Failure(UnpackMismatch)
    else Success((path, "root"))
  }

  /**
   * A path without a `/` names a project's root folder; a path with one
   * `/` splits around it into a project and a folder name neither of which
   * holds a `/`; a path with two or more fails to unpack.
   */
  lemma SplitPathMeaning(path: string)
    ensures !Contains(path, "/") ==> SplitPath(path) == Success((path, "root"))
    ensures Contains(path, "/") ==> (SplitPath(path).Success? <==> |Split(path, "/")| == 2)
    ensures Contains(path, "/") && SplitPath(path).Success? ==>
      var (project, folder) := SplitPath(path).value;
      path == project + "/" + folder && !Contains(project, "/") && !Contains(folder, "/")
  {
    if Contains(path, "/") {
      var parts := Split(path, "/");
      SplitParts(path, "/");
      JoinSplit(path, "/");
      if |parts| == 2 {
        assert parts[0] in parts && parts[1] in parts;
        assert parts[1..] == [parts[1]];
        assert Join(parts[1..], "/") == parts[1];
      }
    }
  }

  /** A project name and a folder name without a `/` come back from the path they make. */
  lemma SplitPathJoined(project: string, folder: string)
    requires '/' !in project && '/' !in folder
    ensures SplitPath(project + "/" + folder) == Success((project, folder))
  {
    SplitAround(project, folder, '/');
  }

  // ----- gathering the folders -----

  /** `self._projects.get_all(name == n & team_id == team)`. */
  type ProjectLookup = string -> seq<Project>

  /** `self._folders.get_all(name == n & team_id == team & project_id == id)`. */
  type FolderLookup = (string, Value) -> seq<Folder>

  /** The folder ids for training and testing, and the projects the checks look at. */
  datatype Selection = Selection(trainIds: seq<Value>, testIds: seq<Value>, projects: seq<Project>)

  /** `folders[0].uuid` of the folders named `folderName` in `projects[0]`; either lookup may come back empty. */
  function FolderIn(folderName: string, projects: seq<Project>, foldersNamed: FolderLookup): Result<Value> {
    if projects == [] then Failure(IndexOutOfRange)
    else
      var folders := foldersNamed(folderName, projects[0].timed.uuid);
      if folders == [] then Failure(IndexOutOfRange) else Success(folders[0].timed.uuid)
  }

  /**
   * The training loop as written: each path's lookup result replaces
   * `projects` and is then doubled by `projects.extend(projects)`, and the
   * folder is looked up in its first project.
   */
  function TrainAsWritten(paths: seq<string>, projectsNamed: ProjectLookup, foldersNamed: FolderLookup)
    : Result<(seq<Value>, seq<Project>)>
    decreases |paths|
  {
    if paths == [] then Success(([], []))
    else
      var (ids, _) :- TrainAsWritten(paths[..|paths| - 1], projectsNamed, foldersNamed);
      var (projectName, folderName) :- SplitPath(paths[|paths| - 1]);
      var found := projectsNamed(projectName);
      var projects := found + found;
      var id :- FolderIn(folderName, projects, foldersNamed);
      Success((ids + [id], projects))
  }

  /**
   * The test loop as written: each path's lookup result is appended to
   * `projects`, and the folder is looked up in the first project of the
   * whole list.
   */
  function TestAsWritten(paths: seq<string>, start: seq<Project>, projectsNamed: ProjectLookup,
                         foldersNamed: FolderLookup): Result<(seq<Value>, seq<Project>)>
    decreases |paths|
  {
    if paths == [] then Success(([], start))
    else
      var (ids, before) :- TestAsWritten(paths[..|paths| - 1], start, projectsNamed, foldersNamed);
      var (projectName, folderName) :- SplitPath(paths[|paths| - 1]);
      var projects := before + projectsNamed(projectName);
      var id :- FolderIn(folderName, projects, foldersNamed);
      Success((ids + [id], projects))
  }

  function SelectAsWritten(train: seq<string>, test: seq<string>, projectsNamed: ProjectLookup,
                           foldersNamed: FolderLookup): Result<Selection>
  {
    var (trainIds, afterTrain) :- TrainAsWritten(train, projectsNamed, foldersNamed);
    var (testIds, projects) :- TestAsWritten(test, afterTrain, projectsNamed, foldersNamed);
    Success(Selection(trainIds, testIds, projects))
  }

  /** As written, the training loop ends with only the last path's projects, doubled. */
  lemma TrainKeepsLastOnly(paths: seq<string>, projectsNamed: ProjectLookup, foldersNamed: FolderLookup)
    requires paths != [] && TrainAsWritten(paths, projectsNamed, foldersNamed).Success?
    ensures SplitPath(paths[|paths| - 1]).Success?
    ensures var found := projectsNamed(SplitPath(paths[|paths| - 1]).value.0);
      TrainAsWritten(paths, projectsNamed, foldersNamed).value.1 == found + found
  {
  }

  /** A training path that fails stops the loop: the later paths are never looked at. */
  lemma {:induction false} TrainFailsLater(paths: seq<string>, i: nat, projectsNamed: ProjectLookup,
                                           foldersNamed: FolderLookup)
    requires i <= |paths|
    requires TrainAsWritten(paths[..i], projectsNamed, foldersNamed).Failure?
    ensures TrainAsWritten(paths, projectsNamed, foldersNamed) == TrainAsWritten(paths[..i], projectsNamed, foldersNamed)
    decreases |paths| - i
  {
    if i < |paths| {
      assert paths[..i + 1][..i] == paths[..i];
      TrainFailsLater(paths, i + 1, projectsNamed, foldersNamed);
    } else {
      assert paths[..i] == paths;
    }
  }

  lemma {:induction false} TestFailsLater(paths: seq<string>, i: nat, start: seq<Project>,
                                          projectsNamed: ProjectLookup, foldersNamed: FolderLookup)
    requires i <= |paths|
    requires TestAsWritten(paths[..i], start, projectsNamed, foldersNamed).Failure?
    ensures TestAsWritten(paths, start, projectsNamed, foldersNamed)
         == TestAsWritten(paths[..i], start, projectsNamed, foldersNamed)
    decreases |paths| - i
  {
    if i < |paths| {
      assert paths[..i + 1][..i] == paths[..i];
      TestFailsLater(paths, i + 1, start, projectsNamed, foldersNamed);
    } else {
      assert paths[..i] == paths;
    }
  }

  /** The two loops of `execute`, with the lookups as written; an IndexError or a bad path stops them. */
  method SelectFolders(train: seq<string>, test: seq<string>, projectsNamed: ProjectLookup,
                       foldersNamed: FolderLookup) returns (r: Result<Selection>)
    ensures r == SelectAsWritten(train, test, projectsNamed, foldersNamed)
  {
    var trainIds: seq<Value> := [];
    var testIds: seq<Value> := [];
    var projects: seq<Project> := [];
    for i := 0 to |train|
      invariant TrainAsWritten(train[..i], projectsNamed, foldersNamed) == Success((trainIds, projects))
    {
      assert train[..i + 1][..i] == train[..i];
      var split := SplitPath(train[i]);
      if split.Failure? {
        TrainFailsLater(train, i + 1, projectsNamed, foldersNamed);
        return Failure(split.error);
      }
      var (projectName, folderName) := split.value;
      projects := projectsNamed(projectName);
      projects := projects + projects;
      var folder := FolderIn(folderName, projects, foldersNamed);
      if folder.Failure? {
        TrainFailsLater(train, i + 1, projectsNamed, foldersNamed);
        return Failure(folder.error);
      }
      trainIds := trainIds + [folder.value];
    }
    assert train[..|train|] == train;
    var afterTrain := projects;
    for i := 0 to |test|
      invariant TestAsWritten(test[..i], afterTrain, projectsNamed, foldersNamed) == Success((testIds, projects))
    {
      assert test[..i + 1][..i] == test[..i];
      var split := SplitPath(test[i]);
      if split.Failure? {
        TestFailsLater(test, i + 1, afterTrain, projectsNamed, foldersNamed);
        return Failure(split.error);
      }
      var (projectName, folderName) := split.value;
      projects := projects + projectsNamed(projectName);
      var folder := FolderIn(folderName, projects, foldersNamed);
      if folder.Failure? {
        TestFailsLater(test, i + 1, afterTrain, projectsNamed, foldersNamed);
        return Failure(folder.error);
      }
      testIds := testIds + [folder.value];
    }
    assert test[..|test|] == test;
    r := Success(Selection(trainIds, testIds, projects));
  }

  /**
   * The loops as evidently intended: every path's own lookup result joins
   * `projects`, and its folder is looked up in that path's project.
   */
  function Gather(paths: seq<string>, projectsNamed: ProjectLookup, foldersNamed: FolderLookup)
    : Result<(seq<Value>, seq<Project>)>
    decreases |paths|
  {
    if paths == [] then Success(([], []))
    else
      var (ids, projects) :- Gather(paths[..|paths| - 1], projectsNamed, foldersNamed);
      var (projectName, folderName) :- SplitPath(paths[|paths| - 1]);
      var found := projectsNamed(projectName);
      var id :- FolderIn(folderName, found, foldersNamed);
      Success((ids + [id], projects + found))
  }

  function Select(train: seq<string>, test: seq<string>, projectsNamed: ProjectLookup, foldersNamed: FolderLookup)
    : Result<Selection>
  {
    var (trainIds, trainProjects) :- Gather(train, projectsNamed, foldersNamed);
    var (testIds, testProjects) :- Gather(test, projectsNamed, foldersNamed);
    Success(Selection(trainIds, testIds, trainProjects + testProjects))
  }

  /** Path `path` resolves to folder id `id` in its own project, whose projects all lie in `projects`. */
  predicate Resolved(path: string, id: Value, projects: seq<Project>, projectsNamed: ProjectLookup,
                     foldersNamed: FolderLookup)
  {
    && SplitPath(path).Success?
    && var (projectName, folderName) := SplitPath(path).value;
    && projectsNamed(projectName) != []
    && (forall p :: p in projectsNamed(projectName) ==> p in projects)
    && foldersNamed(folderName, projectsNamed(projectName)[0].timed.uuid) != []
    && id == foldersNamed(folderName, projectsNamed(projectName)[0].timed.uuid)[0].timed.uuid
  }

  /**
   * The intended gathering gives one folder id per path, each the id of the
   * path's folder in the path's own project, and collects every project
   * the paths name, nothing else.
   */
  lemma {:induction false} GatherResolves(paths: seq<string>, projectsNamed: ProjectLookup, foldersNamed: FolderLookup)
    requires Gather(paths, projectsNamed, foldersNamed).Success?
    ensures var (ids, projects) := Gather(paths, projectsNamed, foldersNamed).value;
      && |ids| == |paths|
      && (forall i :: 0 <= i < |paths| ==> Resolved(paths[i], ids[i], projects, projectsNamed, foldersNamed))
      && (forall p :: p in projects ==> exists i :: 0 <= i < |paths| && p in projectsNamed(SplitPath(paths[i]).value.0))
    decreases |paths|
  {
    if paths != [] {
      var front := paths[..|paths| - 1];
      GatherResolves(front, projectsNamed, foldersNamed);
      var (ids, projects) := Gather(front, projectsNamed, foldersNamed).value;
      var (ids', projects') := Gather(paths, projectsNamed, foldersNamed).value;
      var found := projectsNamed(SplitPath(paths[|paths| - 1]).value.0);
      assert projects' == projects + found;
      forall i | 0 <= i < |paths|
        ensures Resolved(paths[i], ids'[i], projects', projectsNamed, foldersNamed)
      {
        if i < |front| {
          assert paths[i] == front[i];
          assert Resolved(front[i], ids[i], projects, projectsNamed, foldersNamed);
        }
      }
      forall p | p in projects'
        ensures exists i :: 0 <= i < |paths| && p in projectsNamed(SplitPath(paths[i]).value.0)
      {
        if p in projects {
          var i :| 0 <= i < |front| && p in projectsNamed(SplitPath(front[i]).value.0);
          assert paths[i] == front[i];
        } else {
          assert p in found;
        }
      }
    }
  }

  /** The intended selection resolves every training and every test path. */
  lemma SelectResolves(train: seq<string>, test: seq<string>, projectsNamed: ProjectLookup, foldersNamed: FolderLookup)
    requires Select(train, test, projectsNamed, foldersNamed).Success?
    ensures var s := Select(train, test, projectsNamed, foldersNamed).value;
      && |s.trainIds| == |train| && |s.testIds| == |test|
      && (forall i :: 0 <= i < |train| ==> Resolved(train[i], s.trainIds[i], s.projects, projectsNamed, foldersNamed))
      && (forall i :: 0 <= i < |test| ==> Resolved(test[i], s.testIds[i], s.projects, projectsNamed, foldersNamed))
  {
    GatherResolves(train, projectsNamed, foldersNamed);
    GatherResolves(test, projectsNamed, foldersNamed);
  }

  // ----- the checks -----

  const OVERLAP_MESSAGE := "Avoid overlapping between training and test data."
  const MIXED_TYPES_MESSAGE := "All projects have to be of the same type. Either vector or pixel"
  const EXTERNAL_MESSAGE := "The function does not support projects containing images attached with URLs"

  function Elements(ids: seq<Value>): set<Value> {
    set id | id in ids
  }

  function TypesOf(projects: seq<Project>): set<Value> {
    set p | p in projects :: p.projectType
  }

  /** The error `execute` stores in its response, checked in this order, or None when it carries on. */
  function Rejection(s: Selection): Option<string> {
    if Elements(s.trainIds) * Elements(s.testIds) != {} then Some(OVERLAP_MESSAGE)
    else if |TypesOf(s.projects)| != 1 then Some(MIXED_TYPES_MESSAGE)
    else if exists p | p in s.projects :: p.uploadState == UPLOAD_EXTERNAL then Some(EXTERNAL_MESSAGE)
    else None
  }

  /** A set of size one is a singleton. */
  lemma SingletonSet(s: set<Value>, x: Value)
    requires x in s
    ensures |s| == 1 <==> s == {x}
  {
    if |s| == 1 {
      var rest := s - {x};
      assert |rest| == 0;
      assert rest == {};
    }
  }

  /**
   * The checks pass exactly when no folder is used both for training and
   * testing, there is at least one project and all projects are of one
   * type, and none of them is External.
   */
  lemma RejectionExact(s: Selection)
    ensures Rejection(s).None? <==>
      && (forall i, j :: 0 <= i < |s.trainIds| && 0 <= j < |s.testIds| ==> s.trainIds[i] != s.testIds[j])
      && s.projects != []
      && (forall i :: 0 <= i < |s.projects| ==> s.projects[i].projectType == s.projects[0].projectType)
      && (forall i :: 0 <= i < |s.projects| ==> s.projects[i].uploadState != UPLOAD_EXTERNAL)
  {
    var shared := Elements(s.trainIds) * Elements(s.testIds);
    if shared != {} {
      var x :| x in shared;
      var i :| 0 <= i < |s.trainIds| && s.trainIds[i] == x;
      var j :| 0 <= j < |s.testIds| && s.testIds[j] == x;
    } else if s.projects != [] {
      forall i, j | 0 <= i < |s.trainIds| && 0 <= j < |s.testIds| ensures s.trainIds[i] != s.testIds[j] {
        assert s.trainIds[i] in Elements(s.trainIds) && s.testIds[j] in Elements(s.testIds);
        assert s.trainIds[i] !in shared;
        assert s.trainIds[i] !in Elements(s.testIds);
      }
      var t := s.projects[0].projectType;
      assert t in TypesOf(s.projects);
      SingletonSet(TypesOf(s.projects), t);
      if |TypesOf(s.projects)| == 1 {
        forall i | 0 <= i < |s.projects| ensures s.projects[i].projectType == t {
          assert s.projects[i].projectType in TypesOf(s.projects);
        }
        if exists p | p in s.projects :: p.uploadState == UPLOAD_EXTERNAL {
          var p :| p in s.projects && p.uploadState == UPLOAD_EXTERNAL;
          var i :| 0 <= i < |s.projects| && s.projects[i] == p;
        } else {
          forall i | 0 <= i < |s.projects| ensures s.projects[i].uploadState != UPLOAD_EXTERNAL {
            assert s.projects[i] in s.projects;
          }
        }
      } else {
        var u :| u in TypesOf(s.projects) && u != t;
        var p :| p in s.projects && p.projectType == u;
        var i :| 0 <= i < |s.projects| && s.projects[i] == p;
      }
    } else {
      assert TypesOf(s.projects) == {};
    }
  }

  /** `execute` up to the backend, as written: the gathered selection, or the error it stops with. */
  function CreateModelAsWritten(train: seq<string>, test: seq<string>, projectsNamed: ProjectLookup,
                                foldersNamed: FolderLookup): Result<Selection>
  {
    var s :- SelectAsWritten(train, test, projectsNamed, foldersNamed);
    match Rejection(s)
    case Some(message) => Failure(App(message))
    case None => Success(s)
  }

  /** `execute` up to the backend, with the folders gathered as intended. */
  function CreateModel(train: seq<string>, test: seq<string>, projectsNamed: ProjectLookup,
                       foldersNamed: FolderLookup): Result<Selection>
  {
    var s :- Select(train, test, projectsNamed, foldersNamed);
    match Rejection(s)
    case Some(message) => Failure(App(message))
    case None => Success(s)
  }

  /**
   * The intended `execute` accepts only training data whose projects all
   * share one type, none of them External, and whose folders are all
   * resolved in their own projects.
   */
  lemma CreateModelChecksEveryPath(train: seq<string>, test: seq<string>, projectsNamed: ProjectLookup,
                                   foldersNamed: FolderLookup)
    requires CreateModel(train, test, projectsNamed, foldersNamed).Success?
    ensures var s := CreateModel(train, test, projectsNamed, foldersNamed).value;
      && |s.trainIds| == |train| && |s.testIds| == |test|
      && (forall i :: 0 <= i < |train| ==> Resolved(train[i], s.trainIds[i], s.projects, projectsNamed, foldersNamed))
      && (forall i :: 0 <= i < |test| ==> Resolved(test[i], s.testIds[i], s.projects, projectsNamed, foldersNamed))
      && (forall p :: p in s.projects ==> p.projectType == s.projects[0].projectType && p.uploadState != UPLOAD_EXTERNAL)
  {
    var s := Select(train, test, projectsNamed, foldersNamed).value;
    SelectResolves(train, test, projectsNamed, foldersNamed);
    RejectionExact(s);
  }

  // ----- two inputs on which the loops as written go wrong -----

  function TestProject(id: int, projectType: Value): Project {
    NewProject(Null, Null, projectType, Null, Null, Null, Null, Null).(timed := Timed(Int(id), Null, Null))
  }

  function TestFolder(id: int): Folder {
    Folder(Timed(Int(id), Null, Null), Null, Null, Null, Null, Null)
  }

  /** Project `A` is a vector project (1), project `B` a pixel project (2). */
  function TwoProjects(): ProjectLookup {
    name => if name == "A" then [TestProject(1, Int(1))] else if name == "B" then [TestProject(2, Int(2))] else []
  }

  /** Folder `f` has id 10 in project 1 and id 20 in project 2; `g` has ids 11 and 21. */
  function FoldersOfTwo(): FolderLookup {
    (name, project) =>
      if name == "f" && project == Int(1) then [TestFolder(10)]
      else if name == "f" && project == Int(2) then [TestFolder(20)]
      else if name == "g" && project == Int(1) then [TestFolder(11)]
      else if name == "g" && project == Int(2) then [TestFolder(21)]
      else []
  }

  lemma SplitAB()
    ensures SplitPath("A/f") == Success(("A", "f"))
    ensures SplitPath("B/g") == Success(("B", "g"))
  {
    SplitPathJoined("A", "f");
    SplitPathJoined("B", "g");
    assert "A" + "/" + "f" == "A/f" && "B" + "/" + "g" == "B/g";
  }

  lemma LookupsAB()
    ensures TwoProjects()("A") == [TestProject(1, Int(1))] && TwoProjects()("B") == [TestProject(2, Int(2))]
    ensures var pa, pb := TestProject(1, Int(1)), TestProject(2, Int(2));
      && FolderIn("f", [pa], FoldersOfTwo()) == Success(Int(10))
      && FolderIn("f", [pa, pa], FoldersOfTwo()) == Success(Int(10))
      && FolderIn("g", [pb], FoldersOfTwo()) == Success(Int(21))
      && FolderIn("g", [pb, pb], FoldersOfTwo()) == Success(Int(21))
      && FolderIn("g", [pa, pa, pb], FoldersOfTwo()) == Success(Int(11))
  {
    var pa, pb := TestProject(1, Int(1)), TestProject(2, Int(2));
    assert pa.timed.uuid == Int(1) && pb.timed.uuid == Int(2);
    assert FoldersOfTwo()("f", Int(1)) == [TestFolder(10)];
    assert FoldersOfTwo()("g", Int(1)) == [TestFolder(11)];
    assert FoldersOfTwo()("g", Int(2)) == [TestFolder(21)];
  }

  lemma TrainAB()
    ensures TrainAsWritten(["A/f"], TwoProjects(), FoldersOfTwo())
         == Success(([Int(10)], [TestProject(1, Int(1)), TestProject(1, Int(1))]))
    ensures TrainAsWritten(["A/f", "B/g"], TwoProjects(), FoldersOfTwo())
         == Success(([Int(10), Int(21)], [TestProject(2, Int(2)), TestProject(2, Int(2))]))
  {
    SplitAB();
    LookupsAB();
    var pa, pb := TestProject(1, Int(1)), TestProject(2, Int(2));
    assert ["A/f"][..0] == [];
    assert TrainAsWritten([], TwoProjects(), FoldersOfTwo()) == Success(([], []));
    assert TwoProjects()("A") + TwoProjects()("A") == [pa, pa];
    assert [] + [Int(10)] == [Int(10)];
    assert TrainAsWritten(["A/f"], TwoProjects(), FoldersOfTwo()) == Success(([Int(10)], [pa, pa]));
    assert ["A/f", "B/g"][..1] == ["A/f"];
    assert TwoProjects()("B") + TwoProjects()("B") == [pb, pb];
    assert [Int(10)] + [Int(21)] == [Int(10), Int(21)];
  }

  lemma GatherAB()
    ensures Gather(["A/f"], TwoProjects(), FoldersOfTwo()) == Success(([Int(10)], [TestProject(1, Int(1))]))
    ensures Gather(["B/g"], TwoProjects(), FoldersOfTwo()) == Success(([Int(21)], [TestProject(2, Int(2))]))
    ensures Gather(["A/f", "B/g"], TwoProjects(), FoldersOfTwo())
         == Success(([Int(10), Int(21)], [TestProject(1, Int(1)), TestProject(2, Int(2))]))
  {
    SplitAB();
    LookupsAB();
    var pa, pb := TestProject(1, Int(1)), TestProject(2, Int(2));
    assert ["A/f"][..0] == [] && ["B/g"][..0] == [];
    assert Gather([], TwoProjects(), FoldersOfTwo()) == Success(([], []));
    assert [] + [Int(10)] == [Int(10)] && [] + [Int(21)] == [Int(21)];
    assert [] + [pa] == [pa] && [] + [pb] == [pb];
    assert Gather(["A/f"], TwoProjects(), FoldersOfTwo()) == Success(([Int(10)], [pa]));
    assert ["A/f", "B/g"][..1] == ["A/f"];
    assert [Int(10)] + [Int(21)] == [Int(10), Int(21)] && [pa] + [pb] == [pa, pb];
  }

  lemma TestAB()
    ensures var pa, pb := TestProject(1, Int(1)), TestProject(2, Int(2));
      TestAsWritten(["B/g"], [pa, pa], TwoProjects(), FoldersOfTwo()) == Success(([Int(11)], [pa, pa, pb]))
  {
    SplitAB();
    LookupsAB();
    var pa, pb := TestProject(1, Int(1)), TestProject(2, Int(2));
    assert ["B/g"][..0] == [];
    assert TestAsWritten([], [pa, pa], TwoProjects(), FoldersOfTwo()) == Success(([], [pa, pa]));
    assert [pa, pa] + [pb] == [pa, pa, pb];
    assert [] + [Int(11)] == [Int(11)];
  }

  lemma SelectionsAB()
    ensures var pa, pb := TestProject(1, Int(1)), TestProject(2, Int(2));
      && SelectAsWritten(["A/f", "B/g"], [], TwoProjects(), FoldersOfTwo())
         == Success(Selection([Int(10), Int(21)], [], [pb, pb]))
      && Select(["A/f", "B/g"], [], TwoProjects(), FoldersOfTwo())
         == Success(Selection([Int(10), Int(21)], [], [pa, pb]))
      && SelectAsWritten(["A/f"], ["B/g"], TwoProjects(), FoldersOfTwo())
         == Success(Selection([Int(10)], [Int(11)], [pa, pa, pb]))
      && Select(["A/f"], ["B/g"], TwoProjects(), FoldersOfTwo())
         == Success(Selection([Int(10)], [Int(21)], [pa, pb]))
  {
    TrainAB();
    TestAB();
    GatherAB();
    var pa, pb := TestProject(1, Int(1)), TestProject(2, Int(2));
    assert TestAsWritten([], [pb, pb], TwoProjects(), FoldersOfTwo()) == Success(([], [pb, pb]));
    assert Gather([], TwoProjects(), FoldersOfTwo()) == Success(([], []));
    assert [pa, pb] + [] == [pa, pb] && [pa] + [pb] == [pa, pb];
  }

  lemma RejectionsAB()
    ensures var pa, pb := TestProject(1, Int(1)), TestProject(2, Int(2));
      && Rejection(Selection([Int(10), Int(21)], [], [pb, pb])).None?
      && Rejection(Selection([Int(10), Int(21)], [], [pa, pb])) == Some(MIXED_TYPES_MESSAGE)
  {
    var pa, pb := TestProject(1, Int(1)), TestProject(2, Int(2));
    assert Elements([]) == {};
    assert TypesOf([pb, pb]) == {Int(2)};
    assert Int(1) in TypesOf([pa, pb]) && Int(2) in TypesOf([pa, pb]);
    SingletonSet(TypesOf([pa, pb]), Int(1));
    assert pb.uploadState == Null;
  }

  /**
   * Training on a vector and a pixel project: as written, the second
   * path's lookup replaces the first project, the type check sees only
   * pixel projects and lets the mixed data through; as intended, it stops.
   */
  lemma MixedTrainingAccepted()
    ensures CreateModelAsWritten(["A/f", "B/g"], [], TwoProjects(), FoldersOfTwo()).Success?
    ensures CreateModel(["A/f", "B/g"], [], TwoProjects(), FoldersOfTwo()) == Failure(App(MIXED_TYPES_MESSAGE))
  {
    SelectionsAB();
    RejectionsAB();
  }

  /**
   * Training in `A/f` and testing in `B/g`: as written, the test folder `g`
   * is looked up in project A, the first of the accumulated projects, and
   * gets id 11; as intended, it is `g` of project B, id 21.
   */
  lemma TestFolderFromWrongProject()
    ensures SelectAsWritten(["A/f"], ["B/g"], TwoProjects(), FoldersOfTwo()).Success?
    ensures SelectAsWritten(["A/f"], ["B/g"], TwoProjects(), FoldersOfTwo()).value.testIds == [Int(11)]
    ensures Select(["A/f"], ["B/g"], TwoProjects(), FoldersOfTwo()).Success?
    ensures Select(["A/f"], ["B/g"], TwoProjects(), FoldersOfTwo()).value.testIds == [Int(21)]
  {
    SelectionsAB();
  }
}

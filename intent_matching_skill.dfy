/**
 * The intent matching skill: builds the configuration of a TF-IDF FAQ
 * classifier from a bundled template and the caller's options, has the
 * classification engine train or load a model from it, and answers
 * utterance batches by forwarding them to that model.
 */
module IntentMatching {
  import opened Wrappers
  import opened ConfigDoc
  import opened RecursiveMerge

  const DatasetReader: Path := ["dataset_reader"]
  const Variables: Path := ["metadata", "variables"]
  const XColumn: Path := DatasetReader + ["x_col_name"]
  const YColumn: Path := DatasetReader + ["y_col_name"]
  const DataUrl: Path := DatasetReader + ["data_url"]
  const DataPath: Path := DatasetReader + ["data_path"]
  const RootPath: Path := Variables + ["ROOT_PATH"]

  /** Where the model is saved or loaded from when the caller names no path. */
  const DefaultSaveLoadPath: string := "./faq"

  /** `dataset_reader[key] = value` when the caller gave `value`; nothing otherwise. */
  function SetColumn(doc: Json, key: string, value: Option<string>): (r: Result<Json, ConfigError>)
    ensures r.Success? <==> (value.Some? ==> Section(doc, DatasetReader).Some?)
    ensures value.None? ==> r == Success(doc)
  {
    match value
    case Some(name) => Update(doc, DatasetReader, Assign(key, Str(name)))
    case None => Success(doc)
  }

  /** The column-name overrides, `x_col_name` first. */
  function SetColumns(base: Json, xColName: Option<string>, yColName: Option<string>): (r: Result<Json, ConfigError>)
    ensures r.Success? <==> ((xColName.Some? || yColName.Some?) ==> Section(base, DatasetReader).Some?)
    ensures xColName.None? && yColName.None? ==> r == Success(base)
  {
    var withX :- SetColumn(base, "x_col_name", xColName);
    SetColumn(withX, "y_col_name", yColName)
  }

  /** `metadata.variables.ROOT_PATH` is set to the persistence path, or to its default. */
  function SetRootPath(doc: Json, saveLoadPath: Option<string>): (r: Result<Json, ConfigError>)
    ensures r.Success? <==> Section(doc, Variables).Some?
    ensures r.Failure? ==> r.error.path <= Variables
  {
    Update(doc, Variables, Assign("ROOT_PATH", Str(saveLoadPath.GetOr(DefaultSaveLoadPath))))
  }

  /** A given local data file replaces the template's download URL. */
  function UseLocalData(doc: Json, dataPath: Option<string>): (r: Result<Json, ConfigError>)
    ensures r.Success? <==> (dataPath.Some? ==> Section(doc, DatasetReader).Some?)
    ensures r.Failure? ==> r.error.path <= DatasetReader
    ensures dataPath.None? ==> r == Success(doc)
  {
    match dataPath
    case None => Success(doc)
    case Some(path) =>
      var noUrl :- Update(doc, DatasetReader, DeleteIfPresent("data_url"));
      Update(noUrl, DatasetReader, Assign("data_path", Str(path)))
  }

  /** The edits made to the template before the caller's override document is merged in. */
  function PrepareConfig(base: Json, dataPath: Option<string>, xColName: Option<string>,
                         yColName: Option<string>, saveLoadPath: Option<string>): (r: Result<Json, ConfigError>)
    ensures r.Failure? ==> Encloses(r.error.path)
  {
    var columns :- SetColumns(base, xColName, yColName);
    var rooted :- SetRootPath(columns, saveLoadPath);
    UseLocalData(rooted, dataPath)
  }

  /** The configuration handed to the engine: the prepared one with the override document merged in last. */
  function BuildConfig(base: Json, dataPath: Option<string>, xColName: Option<string>, yColName: Option<string>,
                       editDict: Option<map<string, Json>>, saveLoadPath: Option<string>): (r: Result<Json, ConfigError>)
    ensures r.Success? <==> PrepareConfig(base, dataPath, xColName, yColName, saveLoadPath).Success?
  {
    var prepared :- PrepareConfig(base, dataPath, xColName, yColName, saveLoadPath);
    Success(ApplyEditDict(prepared, editDict))
  }

  /** `update_dict_recursive(config, edit_dict)` when the caller gave an override document. */
  function ApplyEditDict(config: Json, editDict: Option<map<string, Json>>): (r: Json)
    ensures editDict.None? ==> r == config
    ensures editDict.Some? && config.Obj? ==> r.Obj? && r.fields.Keys == config.fields.Keys + editDict.value.Keys
  {
    match editDict
    case None => config
    case Some(edits) => Merge(config, Obj(edits))
  }

  /** The keys under `dataset_reader` that preparation may assign or delete. */
  predicate ReaderKey(k: string)
  {
    k == "x_col_name" || k == "y_col_name" || k == "data_url" || k == "data_path"
  }

  /** Paths at or below a key that preparation may assign or delete. */
  predicate Touched(p: Path)
  {
    || (|p| >= 2 && p[0] == DatasetReader[0] && ReaderKey(p[1]))
    || (|p| >= 3 && p[..2] == Variables && p[2] == "ROOT_PATH")
  }

  /** The objects that hold an edited key: they stay objects while their contents change. */
  predicate Encloses(p: Path)
  {
    p <= DatasetReader || p <= Variables
  }

  // ---------------------------------------------------------------------------
  // One edit at a time

  /** A successful update leaves its value at the edited key. */
  lemma UpdateSets(doc: Json, section: Path, e: Edit)
    requires Update(doc, section, e).Success?
    ensures Get(Update(doc, section, e).value, section + [e.key]) == EditedValue(e)
  {
    UpdateWithinFrame(doc, [], section, e);
  }

  /** A successful update leaves every path that parts ways with the edited key as it was. */
  lemma UpdateKeeps(doc: Json, section: Path, e: Edit, p: Path)
    requires Update(doc, section, e).Success?
    requires Diverges(p, section + [e.key])
    ensures Get(Update(doc, section, e).value, p) == Get(doc, p)
  {
    UpdateWithinFrame(doc, [], section, e);
  }

  /** The keys preparation edits part ways with each other. */
  lemma EditedKeysDiverge()
    ensures Diverges(XColumn, YColumn) && Diverges(YColumn, XColumn)
    ensures Diverges(XColumn, RootPath) && Diverges(YColumn, RootPath)
    ensures Diverges(DataUrl, XColumn) && Diverges(DataUrl, YColumn) && Diverges(DataUrl, RootPath)
    ensures Diverges(DataPath, XColumn) && Diverges(DataPath, YColumn) && Diverges(DataPath, RootPath)
    ensures Diverges(XColumn, DataUrl) && Diverges(YColumn, DataUrl) && Diverges(RootPath, DataUrl)
    ensures Diverges(XColumn, DataPath) && Diverges(YColumn, DataPath) && Diverges(RootPath, DataPath)
    ensures Diverges(DataUrl, DataPath)
    ensures Diverges(DatasetReader, RootPath) && Diverges(Variables, XColumn) && Diverges(Variables, YColumn)
  {
    assert XColumn[1] == "x_col_name" && YColumn[1] == "y_col_name";
    assert DataUrl[1] == "data_url" && DataPath[1] == "data_path";
    assert RootPath[0] == "metadata" && XColumn[0] == "dataset_reader";
    assert DatasetReader[0] == "dataset_reader" && Variables[0] == "metadata";
  }

  // ---------------------------------------------------------------------------
  // What preparation does to the template

  /**
   * Preparation raises exactly when `metadata.variables` is not a dict, or when
   * `dataset_reader` is not a dict and some option makes it edit that dict.
   */
  lemma PrepareSucceeds(base: Json, dataPath: Option<string>, xColName: Option<string>,
                        yColName: Option<string>, saveLoadPath: Option<string>)
    ensures PrepareConfig(base, dataPath, xColName, yColName, saveLoadPath).Success? <==>
      && Section(base, Variables).Some?
      && ((xColName.Some? || yColName.Some? || dataPath.Some?) ==> Section(base, DatasetReader).Some?)
  {
    EditedKeysDiverge();
    var withX := SetColumn(base, "x_col_name", xColName);
    var columns := SetColumns(base, xColName, yColName);
    if xColName.Some? && withX.Success? {
      UpdateKeeps(base, DatasetReader, Assign("x_col_name", Str(xColName.value)), Variables);
    }
    if yColName.Some? && columns.Success? {
      UpdateKeeps(withX.value, DatasetReader, Assign("y_col_name", Str(yColName.value)), Variables);
    }
    if columns.Success? {
      var root := Assign("ROOT_PATH", Str(saveLoadPath.GetOr(DefaultSaveLoadPath)));
      var rooted := SetRootPath(columns.value, saveLoadPath);
      if rooted.Success? {
        UpdateKeeps(columns.value, Variables, root, DatasetReader);
        if xColName.None? && yColName.None? {
          assert columns.value == base;
        }
      }
    }
  }

  /**
   * A given column name replaces the template's and an absent one leaves it as
   * it was; setting one column name never changes the other.
   */
  lemma ColumnOverrides(base: Json, dataPath: Option<string>, xColName: Option<string>,
                        yColName: Option<string>, saveLoadPath: Option<string>)
    requires PrepareConfig(base, dataPath, xColName, yColName, saveLoadPath).Success?
    ensures var r := PrepareConfig(base, dataPath, xColName, yColName, saveLoadPath).value;
      && Get(r, XColumn) == (if xColName.Some? then Some(Str(xColName.value)) else Get(base, XColumn))
      && Get(r, YColumn) == (if yColName.Some? then Some(Str(yColName.value)) else Get(base, YColumn))
  {
    EditedKeysDiverge();
    var withX := SetColumn(base, "x_col_name", xColName).value;
    var columns := SetColumn(withX, "y_col_name", yColName).value;
    if xColName.Some? {
      UpdateSets(base, DatasetReader, Assign("x_col_name", Str(xColName.value)));
    }
    if yColName.Some? {
      UpdateKeeps(withX, DatasetReader, Assign("y_col_name", Str(yColName.value)), XColumn);
      UpdateSets(withX, DatasetReader, Assign("y_col_name", Str(yColName.value)));
    }
    var root := Assign("ROOT_PATH", Str(saveLoadPath.GetOr(DefaultSaveLoadPath)));
    var rooted := SetRootPath(columns, saveLoadPath).value;
    UpdateKeeps(columns, Variables, root, XColumn);
    UpdateKeeps(columns, Variables, root, YColumn);
    if dataPath.Some? {
      var noUrl := Update(rooted, DatasetReader, DeleteIfPresent("data_url")).value;
      var local := Assign("data_path", Str(dataPath.value));
      UpdateKeeps(rooted, DatasetReader, DeleteIfPresent("data_url"), XColumn);
      UpdateKeeps(rooted, DatasetReader, DeleteIfPresent("data_url"), YColumn);
      UpdateKeeps(noUrl, DatasetReader, local, XColumn);
      UpdateKeeps(noUrl, DatasetReader, local, YColumn);
    }
  }

  /** `ROOT_PATH` is always set: to the caller's persistence path, or to `./faq` without one. */
  lemma RootPathSet(base: Json, dataPath: Option<string>, xColName: Option<string>,
                    yColName: Option<string>, saveLoadPath: Option<string>)
    requires PrepareConfig(base, dataPath, xColName, yColName, saveLoadPath).Success?
    ensures Get(PrepareConfig(base, dataPath, xColName, yColName, saveLoadPath).value, RootPath)
      == Some(Str(if saveLoadPath.Some? then saveLoadPath.value else "./faq"))
  {
    EditedKeysDiverge();
    var columns := SetColumns(base, xColName, yColName).value;
    var rooted := SetRootPath(columns, saveLoadPath).value;
    UpdateSets(columns, Variables, Assign("ROOT_PATH", Str(saveLoadPath.GetOr(DefaultSaveLoadPath))));
    if dataPath.Some? {
      var noUrl := Update(rooted, DatasetReader, DeleteIfPresent("data_url")).value;
      UpdateKeeps(rooted, DatasetReader, DeleteIfPresent("data_url"), RootPath);
      UpdateKeeps(noUrl, DatasetReader, Assign("data_path", Str(dataPath.value)), RootPath);
    }
  }

  /**
   * With a local data file there is no `data_url` (whether or not the template
   * had one) and `data_path` names the file; without one both are as in the
   * template.
   */
  lemma DataSource(base: Json, dataPath: Option<string>, xColName: Option<string>,
                   yColName: Option<string>, saveLoadPath: Option<string>)
    requires PrepareConfig(base, dataPath, xColName, yColName, saveLoadPath).Success?
    ensures dataPath.Some? ==>
      && Get(PrepareConfig(base, dataPath, xColName, yColName, saveLoadPath).value, DataUrl) == None
      && Get(PrepareConfig(base, dataPath, xColName, yColName, saveLoadPath).value, DataPath) == Some(Str(dataPath.value))
    ensures dataPath.None? ==>
      && Get(PrepareConfig(base, dataPath, xColName, yColName, saveLoadPath).value, DataUrl) == Get(base, DataUrl)
      && Get(PrepareConfig(base, dataPath, xColName, yColName, saveLoadPath).value, DataPath) == Get(base, DataPath)
  {
    EditedKeysDiverge();
    var withX := SetColumn(base, "x_col_name", xColName).value;
    var columns := SetColumn(withX, "y_col_name", yColName).value;
    var rooted := SetRootPath(columns, saveLoadPath).value;
    match dataPath
    case Some(path) =>
      var noUrl := Update(rooted, DatasetReader, DeleteIfPresent("data_url")).value;
      UpdateSets(rooted, DatasetReader, DeleteIfPresent("data_url"));
      UpdateKeeps(noUrl, DatasetReader, Assign("data_path", Str(path)), DataUrl);
      UpdateSets(noUrl, DatasetReader, Assign("data_path", Str(path)));
    case None =>
      if xColName.Some? {
        UpdateKeeps(base, DatasetReader, Assign("x_col_name", Str(xColName.value)), DataUrl);
        UpdateKeeps(base, DatasetReader, Assign("x_col_name", Str(xColName.value)), DataPath);
      }
      if yColName.Some? {
        UpdateKeeps(withX, DatasetReader, Assign("y_col_name", Str(yColName.value)), DataUrl);
        UpdateKeeps(withX, DatasetReader, Assign("y_col_name", Str(yColName.value)), DataPath);
      }
      var root := Assign("ROOT_PATH", Str(saveLoadPath.GetOr(DefaultSaveLoadPath)));
      UpdateKeeps(columns, Variables, root, DataUrl);
      UpdateKeeps(columns, Variables, root, DataPath);
  }

  /** A path that is neither edited nor encloses an edit parts ways with every edited key. */
  lemma OutsideEdits(p: Path)
    requires !Touched(p) && !Encloses(p)
    ensures Diverges(p, XColumn) && Diverges(p, YColumn) && Diverges(p, RootPath)
    ensures Diverges(p, DataUrl) && Diverges(p, DataPath)
  {
    if |p| >= 2 && p[0] == DatasetReader[0] {
      assert p[..1] == DatasetReader;
    }
  }

  /**
   * Preparation changes nothing but the keys it edits: every path that is not
   * at or below an edited key, nor an object holding one, reads as in the
   * template.
   */
  lemma PrepareKeepsRest(base: Json, dataPath: Option<string>, xColName: Option<string>,
                         yColName: Option<string>, saveLoadPath: Option<string>, p: Path)
    requires PrepareConfig(base, dataPath, xColName, yColName, saveLoadPath).Success?
    requires !Touched(p) && !Encloses(p)
    ensures Get(PrepareConfig(base, dataPath, xColName, yColName, saveLoadPath).value, p) == Get(base, p)
    ensures xColName.None? && yColName.None? && dataPath.None? ==>
      Get(PrepareConfig(base, dataPath, xColName, yColName, saveLoadPath).value, DatasetReader) == Get(base, DatasetReader)
  {
    OutsideEdits(p);
    EditedKeysDiverge();
    var withX := SetColumn(base, "x_col_name", xColName).value;
    var columns := SetColumn(withX, "y_col_name", yColName).value;
    var rooted := SetRootPath(columns, saveLoadPath).value;
    if xColName.Some? {
      UpdateKeeps(base, DatasetReader, Assign("x_col_name", Str(xColName.value)), p);
    }
    if yColName.Some? {
      UpdateKeeps(withX, DatasetReader, Assign("y_col_name", Str(yColName.value)), p);
    }
    UpdateKeeps(columns, Variables, Assign("ROOT_PATH", Str(saveLoadPath.GetOr(DefaultSaveLoadPath))), p);
    UpdateKeeps(columns, Variables, Assign("ROOT_PATH", Str(saveLoadPath.GetOr(DefaultSaveLoadPath))), DatasetReader);
    if dataPath.Some? {
      var noUrl := Update(rooted, DatasetReader, DeleteIfPresent("data_url")).value;
      UpdateKeeps(rooted, DatasetReader, DeleteIfPresent("data_url"), p);
      UpdateKeeps(noUrl, DatasetReader, Assign("data_path", Str(dataPath.value)), p);
    }
  }

  /**
   * The override document is merged in after every other edit: without one the
   * configuration is the prepared one; with one, every non-object value it
   * supplies, at any depth, is in the result whatever preparation put there,
   * and every path it says nothing about reads as after preparation.
   */
  lemma EditsAppliedLast(base: Json, dataPath: Option<string>, xColName: Option<string>, yColName: Option<string>,
                         editDict: Option<map<string, Json>>, saveLoadPath: Option<string>, p: Path)
    requires BuildConfig(base, dataPath, xColName, yColName, editDict, saveLoadPath).Success?
    ensures var prepared := PrepareConfig(base, dataPath, xColName, yColName, saveLoadPath).value;
      var r := BuildConfig(base, dataPath, xColName, yColName, editDict, saveLoadPath).value;
      && (editDict.None? ==> r == prepared)
      && (editDict.Some? && OutsideOverride(Obj(editDict.value), p) ==> Get(r, p) == Get(prepared, p))
      && (editDict.Some? && Get(Obj(editDict.value), p).Some? && !Get(Obj(editDict.value), p).value.Obj? ==>
            Get(r, p) == Get(Obj(editDict.value), p))
  {
    var prepared := PrepareConfig(base, dataPath, xColName, yColName, saveLoadPath).value;
    assert BuildConfig(base, dataPath, xColName, yColName, editDict, saveLoadPath).value
      == ApplyEditDict(prepared, editDict);
    if editDict.Some? {
      var edit := Obj(editDict.value);
      if OutsideOverride(edit, p) {
        MergeKeeps(prepared, edit, p);
      }
      if Get(edit, p).Some? && !Get(edit, p).value.Obj? {
        MergeOverrides(prepared, edit, p);
      }
    }
  }

  // ---------------------------------------------------------------------------
  // The skill

  /** A batch of answers with the classifier's confidence in each. */
  datatype Reply = Reply(responses: seq<string>, confidences: seq<real>)

  /** A trained or loaded classifier: scores a batch of utterances. */
  type Handle = seq<string> -> Reply

  /** The classification engine's two entry points, `train_model` and `build_model`. */
  datatype Engine = Engine(trainModel: Json -> Handle, buildModel: Json -> Handle)

  /** Which entry point made the skill's model. */
  datatype Lifecycle = Trained | Loaded

  /** The message logged after training. */
  function SavedMessage(saveLoadPath: string): string
  {
    "Your model was saved at: '" + saveLoadPath + "'"
  }

  /** A skill that matches utterances to intents and answers with the matched intent's answer. */
  class IntentMatchingSkill {
    /** The classifier, set once by the constructor and never replaced. */
    const model: Handle
    /** The entry point that produced `model`. */
    ghost const lifecycle: Lifecycle
    /** The configuration the engine was given. */
    ghost const config: Json
    /** The messages the constructor logged. */
    ghost const logged: seq<string>

    /**
     * Builds the configuration from the template `base` and the options, then
     * has the engine either train a model (logging where it was saved) or load
     * one, with that configuration. A configuration that raises while being
     * built leaves no skill.
     */
    constructor (base: Json, engine: Engine, dataPath: Option<string>, xColName: Option<string>,
                 yColName: Option<string>, editDict: Option<map<string, Json>>,
                 saveLoadPath: Option<string>, train: bool)
      requires BuildConfig(base, dataPath, xColName, yColName, editDict, saveLoadPath).Success?
      ensures config == BuildConfig(base, dataPath, xColName, yColName, editDict, saveLoadPath).value
      ensures lifecycle == (if train then Trained else Loaded)
      ensures model == (if train then engine.trainModel(config) else engine.buildModel(config))
      ensures logged == (if train then [SavedMessage(saveLoadPath.GetOr(DefaultSaveLoadPath))] else [])
    {
      var modelConfig := BuildConfig(base, dataPath, xColName, yColName, editDict, saveLoadPath).value;
      var path := saveLoadPath.GetOr(DefaultSaveLoadPath);
      config := modelConfig;
      if train {
        model := engine.trainModel(modelConfig);
        lifecycle := Trained;
        logged := [SavedMessage(path)];
      } else {
        model := engine.buildModel(modelConfig);
        lifecycle := Loaded;
        logged := [];
      }
    }

    /**
     * Answers a batch of utterances: exactly what the model returns for them.
     * The histories and states are accepted and not consulted, and nothing
     * changes, so the same batch always gets the same reply.
     */
    method Respond<State>(utterances: seq<string>, history: seq<seq<string>>, states: Option<seq<State>>)
      returns (reply: Reply)
      ensures reply == model(utterances)
    {
      reply := model(utterances);
    }
  }
}

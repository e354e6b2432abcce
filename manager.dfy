/** The `DatabaseManager`: an operation mode that is set once and is needed
    before any access, the decision the MongoDB branch of `save_transistor`
    takes over a collection of documents, and the normalisation of the
    `filters` argument of `print_tdb`. */
module Manager {
  import opened Values

  datatype OperationMode = Json | Mongodb

  /** A MongoDB document, as `Transistor.convert_to_dict` produces it. */
  type Doc = map<string, Value>

  /** Everything a manager holds: the mode, the JSON folder once
      `set_operation_mode_json` has run, and the documents of the MongoDB
      collection once `set_operation_mode_mongodb` has connected it. */
  datatype ManagerState = ManagerState(mode: Option<OperationMode>, jsonFolder: Option<string>, collection: Option<seq<Doc>>)

  /** A setter's outcome and the state after it. */
  datatype Step = Step(result: Result<()>, state: ManagerState)

  /** `DatabaseManager()`: no mode, nothing connected. */
  const Initial := ManagerState(None, None, None)

  /** `set_operation_mode_json`. Creating the folder is I/O and is not part of
      the state. */
  function SetJson(s: ManagerState, path: string): (r: Step)
    ensures r.result.Err? <==> s.mode.Some?
    ensures r.result.Err? ==> r == Step(Err(Raised(ModeAlreadySet)), s)
    ensures r.result.Ok? ==> r.state.mode == Some(Json) && r.state.jsonFolder == Some(path) && r.state.collection == s.collection
  {
    if s.mode.Some? then Step(Err(Raised(ModeAlreadySet)), s)
    else Step(Ok(()), s.(mode := Some(Json), jsonFolder := Some(path)))
  }

  /** `set_operation_mode_mongodb`. The mode is set before the collection name
      is checked, so a name other than "local" raises and still leaves the
      mode set, with no collection connected. `local` is what
      `connect_local_tdb()` returns. */
  function SetMongodb(s: ManagerState, name: string, local: seq<Doc>): (r: Step)
    ensures s.mode.Some? ==> r == Step(Err(Raised(ModeAlreadySet)), s)
    ensures s.mode.None? ==> r.state.mode == Some(Mongodb) && r.state.jsonFolder == s.jsonFolder
    ensures s.mode.None? && name == "local" ==> r.result.Ok? && r.state.collection == Some(local)
    ensures s.mode.None? && name != "local" ==>
              r.result == Err(Raised(OnlyLocalCollection)) && r.state.collection == s.collection
  {
    if s.mode.Some? then Step(Err(Raised(ModeAlreadySet)), s)
    else
      var s' := s.(mode := Some(Mongodb));
      if name == "local" then Step(Ok(()), s'.(collection := Some(local)))
      else Step(Err(Raised(OnlyLocalCollection)), s')
  }

  /** The check at the head of save, delete, load and list: the mode, or the
      exception raised when none is set. */
  function Guard(s: ManagerState): (r: Result<OperationMode>)
    ensures r.Ok? <==> s.mode.Some?
    ensures r.Ok? ==> r.value == s.mode.value
    ensures r.Err? ==> r.error == Raised(NoOperationMode)
  {
    if s.mode.None? then Err(Raised(NoOperationMode)) else Ok(s.mode.value)
  }

  /** `find_one({"_id": id})`: the first document whose '_id' is `id`. As in a
      MongoDB query, a missing '_id' matches None. */
  function FindId(docs: seq<Doc>, id: Value): (r: Option<nat>)
    ensures r.Some? ==> r.value < |docs| && Get(docs[r.value], "_id") == id
    ensures r.Some? ==> forall j :: 0 <= j < r.value ==> Get(docs[j], "_id") != id
    ensures r.None? ==> forall j :: 0 <= j < |docs| ==> Get(docs[j], "_id") != id
    decreases |docs|
  {
    if docs == [] then None
    else if Get(docs[0], "_id") == id then Some(0)
    else
      match FindId(docs[1..], id)
      case None => None
      case Some(i) => Some(i + 1)
  }

  /** The MongoDB branch of `save_transistor`: the collection after saving the
      document `doc` of the transistor with id `id`, or the KeyError raised
      while a copy is prepared. `copyName` is `get_copy_transistor_name`. */
  function MongoSave(docs: seq<Doc>, id: Value, doc: Doc, overwrite: Option<bool>, copyName: Value -> Value)
    : (r: Result<seq<Doc>>)
    ensures r.Ok? ==> |docs| <= |r.value| <= |docs| + 1
    ensures r.Err? ==> FindId(docs, id).Some? && overwrite == Some(false) && ("_id" !in doc || "name" !in doc)
    ensures r.Err? ==> r.error.KeyErr?
  {
    match FindId(docs, id)
    case None => Ok(docs + [doc])
    case Some(i) =>
      if overwrite.None? then Ok(docs)
      else if overwrite.value then Ok(docs[i := doc])
      else if "_id" !in doc then Err(KeyErr(None, MissingKey("_id")))
      else
        var copy := doc - {"_id"};
        if "name" !in copy then Err(KeyErr(None, MissingKey("name")))
        else Ok(docs + [copy["name" := copyName(copy["name"])]])
  }

  /** `save_transistor` in MongoDB mode (or with no mode): the guard, then the
      store decision. The collection is missing when the mode was set with a
      name other than "local". */
  function Save(s: ManagerState, id: Value, doc: Doc, overwrite: Option<bool>, copyName: Value -> Value): (r: Step)
    requires s.mode != Some(Json)
    ensures r.state.mode == s.mode && r.state.jsonFolder == s.jsonFolder
    ensures r.result.Err? ==> r.state == s
    ensures s.mode.None? ==> r.result == Err(Raised(NoOperationMode))
    ensures s.mode.Some? && s.collection.None? ==> r.result == Err(Raised(NoCollection))
    ensures r.result.Ok? ==> s.collection.Some? && r.state.collection.Some? &&
                             |s.collection.value| <= |r.state.collection.value| <= |s.collection.value| + 1
  {
    match Guard(s)
    case Err(e) => Step(Err(e), s)
    case Ok(_) =>
      if s.collection.None? then Step(Err(Raised(NoCollection)), s)
      else
        match MongoSave(s.collection.value, id, doc, overwrite, copyName)
        case Err(e) => Step(Err(e), s)
        case Ok(docs) => Step(Ok(()), s.(collection := Some(docs)))
  }

  /** `"name"` appended unless it is already a filter. */
  function WithName(fs: seq<Value>): (r: seq<Value>)
    ensures VStr("name") in r
    ensures VStr("name") in fs ==> r == fs
    ensures VStr("name") !in fs ==> r == fs + [VStr("name")]
  {
    if VStr("name") in fs then fs else fs + [VStr("name")]
  }

  /** The filters `print_tdb` passes on: `filters or []` turns a false
      argument into no filters (and raises where the truth test does), a
      string is a single filter, a list is kept, anything else is a TypeError;
      "name" is then included. */
  function FiltersOf(filters: Value): (r: Result<seq<Value>>)
    ensures r.Ok? ==> VStr("name") in r.value
    ensures r.Err? ==> r.error == TypeErr(FiltersNotListOrString) || r.error == ValueErr(AmbiguousArrayTruth)
  {
    var truth :- Truth(filters);
    var f := if truth then filters else VList([]);
    if f.VList? then Ok(WithName(f.items))
    else if f.VStr? then Ok(WithName([f]))
    else Err(TypeErr(FiltersNotListOrString))
  }

  /** One call of a setter, for reasoning about sequences of calls. */
  datatype SetterCall = SetJsonCall(path: string) | SetMongodbCall(name: string, local: seq<Doc>)

  function Call(s: ManagerState, c: SetterCall): Step {
    match c
    case SetJsonCall(path) => SetJson(s, path)
    case SetMongodbCall(name, local) => SetMongodb(s, name, local)
  }

  /** The number of calls that returned without raising, and the final state. */
  datatype Run = Run(successes: nat, final: ManagerState)

  function RunCalls(s: ManagerState, calls: seq<SetterCall>): Run
    decreases |calls|
  {
    if calls == [] then Run(0, s)
    else
      var step := Call(s, calls[0]);
      var rest := RunCalls(step.state, calls[1..]);
      Run(rest.successes + (if step.result.Ok? then 1 else 0), rest.final)
  }

  // ---------------------------------------------------------------- lemmas

  /** The mode can be set only once: over any sequence of setter calls at most
      one returns without raising, none does once a mode is set (and then the
      state does not change), and after any call a mode is set. */
  lemma {:induction false} ModeSetOnlyOnce(s: ManagerState, calls: seq<SetterCall>)
    ensures RunCalls(s, calls).successes <= 1
    ensures s.mode.Some? ==> RunCalls(s, calls) == Run(0, s)
    ensures calls != [] ==> RunCalls(s, calls).final.mode.Some?
    decreases |calls|
  {
    if calls != [] {
      var step := Call(s, calls[0]);
      assert step.state.mode.Some?;
      ModeSetOnlyOnce(step.state, calls[1..]);
    }
  }

  /** A MongoDB call with another collection name raises, yet leaves the
      mode set, so neither setter can be used afterwards and a save raises
      because no collection is connected. */
  lemma RejectedCollectionBlocksManager(name: string, local: seq<Doc>, later: seq<SetterCall>,
                                        id: Value, doc: Doc, overwrite: Option<bool>, copyName: Value -> Value)
    requires name != "local"
    ensures var step := SetMongodb(Initial, name, local);
      && step.result == Err(Raised(OnlyLocalCollection))
      && RunCalls(step.state, later) == Run(0, step.state)
      && Save(step.state, id, doc, overwrite, copyName).result == Err(Raised(NoCollection))
  {
    ModeSetOnlyOnce(SetMongodb(Initial, name, local).state, later);
  }

  /** Saving, deleting, loading and listing all raise until a mode is set. */
  lemma NothingBeforeMode(id: Value, doc: Doc, overwrite: Option<bool>, copyName: Value -> Value)
    ensures Guard(Initial) == Err(Raised(NoOperationMode))
    ensures Save(Initial, id, doc, overwrite, copyName) == Step(Err(Raised(NoOperationMode)), Initial)
  {
  }

  /** The four outcomes of a MongoDB save. */
  lemma MongoSaveRules(docs: seq<Doc>, id: Value, doc: Doc, overwrite: Option<bool>, copyName: Value -> Value)
    ensures FindId(docs, id).None? ==> MongoSave(docs, id, doc, overwrite, copyName) == Ok(docs + [doc])
    ensures FindId(docs, id).Some? && overwrite.None? ==> MongoSave(docs, id, doc, overwrite, copyName) == Ok(docs)
    ensures FindId(docs, id).Some? && overwrite == Some(true) ==>
              var i := FindId(docs, id).value;
              var r := MongoSave(docs, id, doc, overwrite, copyName);
              && r.Ok? && |r.value| == |docs| && r.value[i] == doc
              && forall j :: 0 <= j < |docs| && j != i ==> r.value[j] == docs[j]
    ensures FindId(docs, id).Some? && overwrite == Some(false) ==>
              var r := MongoSave(docs, id, doc, overwrite, copyName);
              && (r.Ok? <==> "_id" in doc && "name" in doc)
              && (r.Ok? ==>
                    && |r.value| == |docs| + 1 && r.value[..|docs|] == docs
                    && var copy := r.value[|docs|];
                    && copy.Keys == doc.Keys - {"_id"}
                    && copy["name"] == copyName(doc["name"])
                    && forall k :: k in copy && k != "name" ==> copy[k] == doc[k])
  {
    if FindId(docs, id).Some? && overwrite == Some(false) && "_id" in doc && "name" in doc {
      var r := MongoSave(docs, id, doc, overwrite, copyName);
      assert r.value[..|docs|] == docs;
    }
  }

  /** A save never loses a document: the collection keeps every document at
      its position, except the one an overwrite replaces, and grows by at most
      one. */
  lemma MongoSaveKeepsDocuments(docs: seq<Doc>, id: Value, doc: Doc, overwrite: Option<bool>, copyName: Value -> Value)
    requires MongoSave(docs, id, doc, overwrite, copyName).Ok?
    ensures var r := MongoSave(docs, id, doc, overwrite, copyName).value;
      && |docs| <= |r| <= |docs| + 1
      && forall j :: 0 <= j < |docs| && Get(docs[j], "_id") != id ==> r[j] == docs[j]
  {
  }

  /** A document saved under its own id is found afterwards, and saving it
      again without `overwrite` leaves the collection as it is. */
  lemma {:induction false} SavedDocumentIsFound(docs: seq<Doc>, doc: Doc, overwrite: Option<bool>, copyName: Value -> Value)
    requires overwrite != Some(false)
    requires "_id" in doc
    ensures var r := MongoSave(docs, doc["_id"], doc, overwrite, copyName);
      && r.Ok?
      && FindId(r.value, doc["_id"]).Some?
      && MongoSave(r.value, doc["_id"], doc, None, copyName) == Ok(r.value)
  {
    var id := doc["_id"];
    var r := MongoSave(docs, id, doc, overwrite, copyName).value;
    match FindId(docs, id)
    case None =>
      assert Get(r[|docs|], "_id") == id;
    case Some(i) =>
      assert Get(r[i], "_id") == id;
  }

  /** The first document carrying the id is the one `find_one` reports. */
  lemma FindIdIsFirst(docs: seq<Doc>, id: Value, i: nat)
    requires i < |docs| && Get(docs[i], "_id") == id
    requires forall j :: 0 <= j < i ==> Get(docs[j], "_id") != id
    ensures FindId(docs, id) == Some(i)
  {
    var k := FindId(docs, id);
    assert k.Some?;
    assert !(k.value < i) && !(i < k.value);
  }

  /** Overwriting twice with the same document is overwriting once. */
  lemma OverwriteIdempotent(docs: seq<Doc>, doc: Doc, copyName: Value -> Value)
    requires "_id" in doc
    ensures var r := MongoSave(docs, doc["_id"], doc, Some(true), copyName);
      r.Ok? && MongoSave(r.value, doc["_id"], doc, Some(true), copyName) == r
  {
    var id := doc["_id"];
    var r := MongoSave(docs, id, doc, Some(true), copyName).value;
    match FindId(docs, id)
    case None =>
      assert forall j :: 0 <= j < |docs| ==> r[j] == docs[j];
      FindIdIsFirst(r, id, |docs|);
      assert r[|docs| := doc] == r;
    case Some(i) =>
      assert forall j :: 0 <= j < i ==> r[j] == docs[j];
      FindIdIsFirst(r, id, i);
      assert r[i := doc] == r;
  }

  /** Which filter arguments `print_tdb` accepts. */
  lemma FiltersAccepted(filters: Value)
    ensures FiltersOf(filters).Ok? <==> Truth(filters) == Ok(false) || filters.VList? || filters.VStr?
    ensures Truth(filters) == Ok(false) ==> FiltersOf(filters) == Ok([VStr("name")])
    ensures Truth(filters).Err? ==> FiltersOf(filters) == Err(ValueErr(AmbiguousArrayTruth))
    ensures filters.VStr? && filters != VStr("") ==> FiltersOf(filters) == Ok(WithName([filters]))
  {
    assert [] + [VStr("name")] == [VStr("name")];
  }

  /** The filters keep their order, "name" is among them, and it is appended
      at most once: after normalisation "name" occurs as often as before, or
      once when it was missing. */
  lemma FiltersKeepOrderAndAddNameOnce(fs: seq<Value>)
    ensures var r := FiltersOf(VList(fs)).value;
      && r[..|fs|] == fs && |r| <= |fs| + 1
      && VStr("name") in r
      && multiset(r)[VStr("name")] == (if VStr("name") in fs then multiset(fs)[VStr("name")] else 1)
  {
    var r := FiltersOf(VList(fs)).value;
    assert r[..|fs|] == fs;
    if VStr("name") !in fs {
      assert multiset(fs)[VStr("name")] == 0;
      assert multiset(r) == multiset(fs) + multiset{VStr("name")};
    }
  }

  /** Normalised filters are left as they are by a second normalisation. */
  lemma FiltersIdempotent(filters: Value)
    requires FiltersOf(filters).Ok?
    ensures FiltersOf(VList(FiltersOf(filters).value)) == FiltersOf(filters)
  {
  }

  class DatabaseManager {
    var operationMode: Option<OperationMode>
    var jsonFolder: Option<string>
    var collection: Option<seq<Doc>>

    function State(): ManagerState
      reads this
    {
      ManagerState(operationMode, jsonFolder, collection)
    }

    constructor()
      ensures State() == Initial
    {
      operationMode := None;
      jsonFolder := None;
      collection := None;
    }

    method SetOperationModeJson(path: string) returns (r: Result<()>)
      modifies this
      ensures Step(r, State()) == SetJson(old(State()), path)
    {
      if operationMode.Some? {
        return Err(Raised(ModeAlreadySet));
      }
      operationMode := Some(Json);
      jsonFolder := Some(path);
      r := Ok(());
    }

    method SetOperationModeMongodb(name: string, local: seq<Doc>) returns (r: Result<()>)
      modifies this
      ensures Step(r, State()) == SetMongodb(old(State()), name, local)
    {
      if operationMode.Some? {
        return Err(Raised(ModeAlreadySet));
      }
      operationMode := Some(Mongodb);
      if name == "local" {
        collection := Some(local);
        r := Ok(());
      } else {
        r := Err(Raised(OnlyLocalCollection));
      }
    }

    /** `save_transistor`; the JSON branch is not part of this model. */
    method SaveTransistor(id: Value, doc: Doc, overwrite: Option<bool>, copyName: Value -> Value) returns (r: Result<()>)
      requires operationMode != Some(Json)
      modifies this
      ensures Step(r, State()) == Save(old(State()), id, doc, overwrite, copyName)
    {
      if operationMode.None? {
        return Err(Raised(NoOperationMode));
      }
      if collection.None? {
        return Err(Raised(NoCollection));
      }
      var docs := collection.value;
      var i := FindId(docs, id);
      if i.Some? {
        if overwrite.None? {
          return Ok(());
        }
        if overwrite.value {
          collection := Some(docs[i.value := doc]);
          return Ok(());
        }
        if "_id" !in doc {
          return Err(KeyErr(None, MissingKey("_id")));
        }
        var copy := doc - {"_id"};
        if "name" !in copy {
          return Err(KeyErr(None, MissingKey("name")));
        }
        copy := copy["name" := copyName(copy["name"])];
        collection := Some(docs + [copy]);
      } else {
        collection := Some(docs + [doc]);
      }
      r := Ok(());
    }

    /** The head of `print_tdb`: `filters or []`, then a string wrapped in a
        list, then "name" appended to the list when it is missing. */
    method NormalizeFilters(filters: Value) returns (r: Result<seq<Value>>)
      ensures r == FiltersOf(filters)
    {
      var f := filters;
      var truth := Truth(f);
      if truth.Err? {
        return Err(truth.error);
      }
      if !truth.value {
        f := VList([]);
      }
      if !f.VList? {
        if f.VStr? {
          f := VList([f]);
        } else {
          return Err(TypeErr(FiltersNotListOrString));
        }
      }
      var fs := f.items;
      if VStr("name") !in fs {
        fs := fs + [VStr("name")];
      }
      r := Ok(fs);
    }
  }
}

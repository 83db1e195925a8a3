/**
 * MicroController: search, read, save and delete handlers for micro
 * applications, with a validation class in place of a form. Gates work
 * as in the CRUD controller; "not found" in search and read only stops
 * the handler when `onResultsNotFound` answers a strict `false`, which
 * the controller's own handler does.
 */
module Micro {
  import opened Wrappers
  import opened Php
  import opened Mvc

  const DEFAULT_PAGE_LIMIT: int := 10
  const DEFAULT_PAGE: int := 1

  /**
   * The controller's collaborators, by their answers: the events manager's
   * answer per event; the request's query array, its `limit` and `page`
   * query entries read as ints (absent is `None`), its JSON body, whether
   * it is a PUT, its PUT body and its merged params; the framework criteria
   * built from the query, `find`, the paginator's items for (results,
   * limit, page), whether `findFirstById` finds a record, the truthiness
   * of what the validation's `validate` returns (the handler tests
   * `!validate($data)`, whatever object the framework returns), and the
   * model's `save` and `delete`.
   */
  datatype Env = Env(
    fire: string -> Value,
    query: Value,
    limitQuery: Option<int>,
    pageQuery: Option<int>,
    json: Value,
    isPut: bool,
    put: Value,
    params: Value,
    criteria: Value -> Value,
    find: Value -> seq<Value>,
    paginate: (seq<Value>, int, int) -> seq<Value>,
    found: Value -> bool,
    valid: Value -> bool,
    saves: Model -> bool,
    deletes: Model -> bool)

  /** The controller's fields; `validation` says whether a validation instance was created. */
  datatype Snapshot = Snapshot(model: Option<Model>, validation: bool, results: seq<Value>, pageLimit: int)

  datatype Run = Run(result: Value, state: Snapshot, trace: seq<Step>)

  /** `getRequestData`: a non-empty JSON body, else the PUT body of a PUT, else the request params. */
  function RequestData(json: Value, isPut: bool, put: Value, params: Value): (d: Value)
    ensures Truthy(json) ==> d == json
    ensures !Truthy(json) && isPut ==> d == put
    ensures !Truthy(json) && !isPut ==> d == params
  {
    if Truthy(json) then json else if isPut then put else params
  }

  /** `search`: criteria from the query, paged by the query's `limit` and `page`. */
  function Search(env: Env, s: Snapshot): (r: Run)
    ensures AnswersLastEvent(env.fire, "beforeSearch", r.result, r.trace)
    ensures r.state.(results := s.results) == s
    ensures SaveModel !in r.trace && DeleteModel !in r.trace
  {
    if IsFalse(env.fire("beforeSearch")) then Run(Bool(false), s, [Fired("beforeSearch")])
    else
      var params := env.criteria(env.query);
      var models := env.find(params);
      var t := [Fired("beforeSearch"), Find(params)];
      if |models| == 0 && IsFalse(env.fire("onResultsNotFound")) then
        Run(Bool(false), s, t + [Fired("onResultsNotFound")])
      else
        var t1 := t + (if |models| == 0 then [Fired("onResultsNotFound")] else []);
        var limit := if env.limitQuery.Some? then env.limitQuery.value else s.pageLimit;
        var page := if env.pageQuery.Some? then env.pageQuery.value else DEFAULT_PAGE;
        Run(env.fire("afterSearch"), s.(results := env.paginate(models, limit, page)), t1 + [Fired("afterSearch")])
  }

  /** `read($id)`: when `onResultsNotFound` lets a missing record through, the model becomes null. */
  function Read(env: Env, s: Snapshot, id: Value): (r: Run)
    ensures AnswersLastEvent(env.fire, "beforeRead", r.result, r.trace)
    ensures r.state.(model := s.model) == s
    ensures Fired("afterRead") in r.trace ==> r.state.model == (if env.found(id) then Some(Stored(id)) else None)
    ensures SaveModel !in r.trace && DeleteModel !in r.trace
  {
    if IsFalse(env.fire("beforeRead")) then Run(Bool(false), s, [Fired("beforeRead")])
    else
      var t := [Fired("beforeRead"), FindFirst(id)];
      if !env.found(id) && IsFalse(env.fire("onResultsNotFound")) then
        Run(Bool(false), s, t + [Fired("onResultsNotFound")])
      else
        var t1 := t + (if !env.found(id) then [Fired("onResultsNotFound")] else []);
        Run(env.fire("afterRead"), s.(model := if env.found(id) then Some(Stored(id)) else None), t1 + [Fired("afterRead")])
  }

  /** The second half of `save`, once the model is in place. */
  function SaveLoaded(env: Env, s: Snapshot, t: seq<Step>): (r: Run)
    requires s.model.Some?
    ensures |r.trace| > |t| && r.trace[..|t|] == t
    ensures t != [] ==> r.trace[0] == t[0]
    ensures r.trace[|r.trace| - 1].Fired? && r.result == env.fire(r.trace[|r.trace| - 1].event)
    ensures r.state == s
    ensures DeleteModel in r.trace ==> DeleteModel in t
  {
    var data := RequestData(env.json, env.isPut, env.put, env.params);
    var model := s.model.value;
    var t1 := t + [Fired("beforeValidation")];
    if IsFalse(env.fire("beforeValidation")) then Run(Bool(false), s, t1)
    else
      var t2 := t1 + [Validated(data)];
      if !env.valid(data) then Run(env.fire("onValidationFails"), s, t2 + [Fired("onValidationFails")])
      else
        var t3 := t2 + [Fired("afterValidation")];
        if IsFalse(env.fire("afterValidation")) then Run(Bool(false), s, t3)
        else
          var t4 := t3 + [SaveModel];
          if !env.saves(model) then Run(env.fire("onSaveFails"), s, t4 + [Fired("onSaveFails")])
          else Run(env.fire("afterSave"), s, t4 + [Fired("afterSave")])
  }

  /** `save($id)`: a null id creates, any other id updates the record with that id. */
  function Save(env: Env, s: Snapshot, id: Value): (r: Run)
    ensures AnswersLastEvent(env.fire, "beforeSave", r.result, r.trace)
    ensures r.state.(model := s.model, validation := s.validation) == s
    ensures r.state.validation == (s.validation || !IsFalse(env.fire("beforeSave")))
    ensures DeleteModel !in r.trace
    ensures SaveModel in r.trace ==> r.state.model == Some(if id != Null then Stored(id) else Fresh)
  {
    var t0 := [Fired("beforeSave")];
    if IsFalse(env.fire("beforeSave")) then Run(Bool(false), s, t0)
    else
      var s1 := s.(model := Some(Fresh), validation := true);
      if id != Null then
        var t1 := t0 + [Fired("beforeSaveExisting")];
        if IsFalse(env.fire("beforeSaveExisting")) then Run(Bool(false), s1, t1)
        else
          var t2 := t1 + [FindFirst(id)];
          if !env.found(id) then Run(env.fire("onSaveNotFound"), s1.(model := None), t2 + [Fired("onSaveNotFound")])
          else SaveLoaded(env, s1.(model := Some(Stored(id))), t2)
      else
        var t1 := t0 + [Fired("beforeSaveNew")];
        if IsFalse(env.fire("beforeSaveNew")) then Run(Bool(false), s1, t1)
        else SaveLoaded(env, s1, t1)
  }

  /** `delete($id)`: a missing record answers what `onResultsNotFound` answers. */
  function Delete(env: Env, s: Snapshot, id: Value): (r: Run)
    ensures AnswersLastEvent(env.fire, "beforeDelete", r.result, r.trace)
    ensures r.state.(model := s.model) == s
    ensures SaveModel !in r.trace
    ensures DeleteModel in r.trace ==> r.state.model == Some(Stored(id))
  {
    if IsFalse(env.fire("beforeDelete")) then Run(Bool(false), s, [Fired("beforeDelete")])
    else
      var t := [Fired("beforeDelete"), FindFirst(id)];
      if !env.found(id) then Run(env.fire("onResultsNotFound"), s.(model := None), t + [Fired("onResultsNotFound")])
      else
        var s1 := s.(model := Some(Stored(id)));
        var t1 := t + [DeleteModel];
        if !env.deletes(Stored(id)) then Run(env.fire("onDeleteFails"), s1, t1 + [Fired("onDeleteFails")])
        else Run(env.fire("afterDelete"), s1, t1 + [Fired("afterDelete")])
  }

  /** A strict `false` from a handler's opening event ends it at once, with nothing else asked or changed. */
  lemma OpeningEventAborts(env: Env, s: Snapshot, id: Value)
    ensures IsFalse(env.fire("beforeSearch")) ==> Search(env, s) == Run(Bool(false), s, [Fired("beforeSearch")])
    ensures IsFalse(env.fire("beforeRead")) ==> Read(env, s, id) == Run(Bool(false), s, [Fired("beforeRead")])
    ensures IsFalse(env.fire("beforeSave")) ==> Save(env, s, id) == Run(Bool(false), s, [Fired("beforeSave")])
    ensures IsFalse(env.fire("beforeDelete")) ==> Delete(env, s, id) == Run(Bool(false), s, [Fired("beforeDelete")])
  {
  }

  /** Every gate of a save, in the order the handler checks them. */
  predicate SaveGatesPass(env: Env, id: Value)
  {
    && !IsFalse(env.fire("beforeSave"))
    && (id != Null ==> !IsFalse(env.fire("beforeSaveExisting")) && env.found(id))
    && (id == Null ==> !IsFalse(env.fire("beforeSaveNew")))
    && !IsFalse(env.fire("beforeValidation"))
    && env.valid(RequestData(env.json, env.isPut, env.put, env.params))
    && !IsFalse(env.fire("afterValidation"))
  }

  lemma SaveLoadedGates(env: Env, s: Snapshot, t: seq<Step>)
    requires s.model.Some?
    requires SaveModel !in t && Fired("afterSave") !in t
    ensures var run := SaveLoaded(env, s, t);
      && (SaveModel in run.trace <==>
           !IsFalse(env.fire("beforeValidation")) && env.valid(RequestData(env.json, env.isPut, env.put, env.params))
           && !IsFalse(env.fire("afterValidation")))
      && (Fired("afterSave") in run.trace <==> SaveModel in run.trace && env.saves(s.model.value))
  {
  }

  /**
   * `model->save()` is attempted exactly when every gate has passed, on
   * the request data; `afterSave` fires exactly when that save succeeds.
   */
  lemma SaveOnlyPastEveryGate(env: Env, s: Snapshot, id: Value)
    ensures var run := Save(env, s, id);
      var model := if id != Null then Stored(id) else Fresh;
      && (SaveModel in run.trace <==> SaveGatesPass(env, id))
      && (Fired("afterSave") in run.trace <==> SaveGatesPass(env, id) && env.saves(model))
  {
    if !IsFalse(env.fire("beforeSave")) {
      var s1 := s.(model := Some(Fresh), validation := true);
      if id != Null {
        if !IsFalse(env.fire("beforeSaveExisting")) && env.found(id) {
          var t := [Fired("beforeSave"), Fired("beforeSaveExisting"), FindFirst(id)];
          assert [Fired("beforeSave")] + [Fired("beforeSaveExisting")] + [FindFirst(id)] == t;
          SaveLoadedGates(env, s1.(model := Some(Stored(id))), t);
        }
      } else if !IsFalse(env.fire("beforeSaveNew")) {
        var t := [Fired("beforeSave"), Fired("beforeSaveNew")];
        assert [Fired("beforeSave")] + [Fired("beforeSaveNew")] == t;
        SaveLoadedGates(env, s1, t);
      }
    }
  }

  /** An update whose record is missing answers what `onSaveNotFound` answers and saves nothing. */
  lemma SaveOfMissingRecord(env: Env, s: Snapshot, id: Value)
    requires id != Null && !env.found(id)
    requires !IsFalse(env.fire("beforeSave")) && !IsFalse(env.fire("beforeSaveExisting"))
    ensures var run := Save(env, s, id);
      run.result == env.fire("onSaveNotFound") && SaveModel !in run.trace && run.state.model == None
  {
  }

  /** A delete whose record is missing answers what `onResultsNotFound` answers and deletes nothing. */
  lemma DeleteOnlyWhenFound(env: Env, s: Snapshot, id: Value)
    ensures var run := Delete(env, s, id);
      && (!IsFalse(env.fire("beforeDelete")) && !env.found(id) ==> run.result == env.fire("onResultsNotFound"))
      && (DeleteModel in run.trace <==> !IsFalse(env.fire("beforeDelete")) && env.found(id))
      && (Fired("afterDelete") in run.trace <==> DeleteModel in run.trace && env.deletes(Stored(id)))
  {
  }

  /** A search that reaches the paginator pages by the query, with `pageLimit` and page 1 when the query has none. */
  lemma SearchPaging(env: Env, s: Snapshot)
    requires !IsFalse(env.fire("beforeSearch"))
    requires |env.find(env.criteria(env.query))| > 0 || !IsFalse(env.fire("onResultsNotFound"))
    ensures var run := Search(env, s);
      var limit := if env.limitQuery.None? then s.pageLimit else env.limitQuery.value;
      var page := if env.pageQuery.None? then 1 else env.pageQuery.value;
      run.state == s.(results := env.paginate(env.find(env.criteria(env.query)), limit, page))
      && run.result == env.fire("afterSearch")
  {
  }

  /** The controller's own handlers, the only listener attached by default: `onResultsNotFound` answers false, the rest nothing. */
  function DefaultListener(event: string): (r: Value)
    ensures IsFalse(r) <==> event == "onResultsNotFound"
  {
    if event == "onResultsNotFound" then Bool(false) else Null
  }

  /** With the default handler, a search without results and a read of a missing record both answer false and change nothing. */
  lemma DefaultNotFoundStops(env: Env, s: Snapshot, id: Value)
    requires env.fire("onResultsNotFound") == DefaultListener("onResultsNotFound")
    ensures |env.find(env.criteria(env.query))| == 0 ==> Search(env, s).result == Bool(false) && Search(env, s).state == s
    ensures !env.found(id) ==> Read(env, s, id).result == Bool(false) && Read(env, s, id).state == s
  {
  }

  /** The micro controller. */
  class MicroController {
    const className: string
    const validationClass: Value
    const modelClass: Value
    var model: Option<Model>
    var validation: bool
    var results: seq<Value>
    var pageLimit: int
    /** The interactions of every handler so far. */
    var trace: seq<Step>

    constructor (className: string, validationClass: Value, modelClass: Value)
      ensures this.className == className && this.validationClass == validationClass && this.modelClass == modelClass
      ensures Current() == Snapshot(None, false, [], DEFAULT_PAGE_LIMIT) && trace == []
    {
      this.className := className;
      this.validationClass := validationClass;
      this.modelClass := modelClass;
      model := None;
      validation := false;
      results := [];
      pageLimit := DEFAULT_PAGE_LIMIT;
      trace := [];
    }

    function Current(): Snapshot
      reads this
    {
      Snapshot(model, validation, results, pageLimit)
    }

    /** `initialize`: fails exactly when the validation class or the model class is empty. */
    function Initialize(): (r: Result<(), string>)
      ensures r.Failure? <==> IsEmpty(validationClass) || IsEmpty(modelClass)
      ensures r.Failure? ==>
        r.error == className + "::validationClass and " + className + "::modelClass must be set (with full namespaces)"
    {
      var r := RequireClasses(className, "validationClass", validationClass, modelClass);
      assert r.Failure? ==>
        r.error == className + "::validationClass and " + className + "::modelClass must be set (with full namespaces)";
      r
    }

    method SetPageLimit(limit: int)
      modifies this`pageLimit
      ensures pageLimit == limit
    {
      pageLimit := limit;
    }

    method SearchHandler(env: Env) returns (r: Value)
      modifies this
      ensures var run := Search(env, old(Current()));
        r == run.result && Current() == run.state && trace == old(trace) + run.trace
    {
      if IsFalse(env.fire("beforeSearch")) {
        trace := trace + [Fired("beforeSearch")];
        return Bool(false);
      }
      var params := env.criteria(env.query);
      var models := env.find(params);
      var steps := [Fired("beforeSearch"), Find(params)];
      if |models| == 0 {
        steps := steps + [Fired("onResultsNotFound")];
        if IsFalse(env.fire("onResultsNotFound")) {
          trace := trace + steps;
          return Bool(false);
        }
      }
      var limit := pageLimit;
      if env.limitQuery.Some? {
        limit := env.limitQuery.value;
      }
      var page := DEFAULT_PAGE;
      if env.pageQuery.Some? {
        page := env.pageQuery.value;
      }
      results := env.paginate(models, limit, page);
      trace := trace + (steps + [Fired("afterSearch")]);
      r := env.fire("afterSearch");
    }

    method ReadHandler(env: Env, id: Value) returns (r: Value)
      modifies this
      ensures var run := Read(env, old(Current()), id);
        r == run.result && Current() == run.state && trace == old(trace) + run.trace
    {
      if IsFalse(env.fire("beforeRead")) {
        trace := trace + [Fired("beforeRead")];
        return Bool(false);
      }
      var found := env.found(id);
      var steps := [Fired("beforeRead"), FindFirst(id)];
      if !found {
        steps := steps + [Fired("onResultsNotFound")];
        if IsFalse(env.fire("onResultsNotFound")) {
          trace := trace + steps;
          return Bool(false);
        }
      }
      model := if found then Some(Stored(id)) else None;
      trace := trace + (steps + [Fired("afterRead")]);
      r := env.fire("afterRead");
    }

    method SaveHandler(env: Env, id: Value) returns (r: Value)
      modifies this
      ensures var run := Save(env, old(Current()), id);
        r == run.result && Current() == run.state && trace == old(trace) + run.trace
    {
      var steps := [Fired("beforeSave")];
      if IsFalse(env.fire("beforeSave")) {
        trace := trace + steps;
        return Bool(false);
      }
      model := Some(Fresh);
      validation := true;
      if id != Null {
        steps := steps + [Fired("beforeSaveExisting")];
        if IsFalse(env.fire("beforeSaveExisting")) {
          trace := trace + steps;
          return Bool(false);
        }
        steps := steps + [FindFirst(id)];
        if !env.found(id) {
          model := None;
          trace := trace + (steps + [Fired("onSaveNotFound")]);
          return env.fire("onSaveNotFound");
        }
        model := Some(Stored(id));
      } else {
        steps := steps + [Fired("beforeSaveNew")];
        if IsFalse(env.fire("beforeSaveNew")) {
          trace := trace + steps;
          return Bool(false);
        }
      }
      r := SaveLoadedHandler(env, steps);
    }

    /** The second half of `save`, once the model is in place. */
    method SaveLoadedHandler(env: Env, steps: seq<Step>) returns (r: Value)
      requires model.Some?
      modifies this
      ensures var run := SaveLoaded(env, old(Current()), steps);
        r == run.result && Current() == run.state && trace == old(trace) + run.trace
    {
      var steps := steps;
      var data := RequestData(env.json, env.isPut, env.put, env.params);
      steps := steps + [Fired("beforeValidation")];
      if IsFalse(env.fire("beforeValidation")) {
        trace := trace + steps;
        return Bool(false);
      }
      steps := steps + [Validated(data)];
      if !env.valid(data) {
        trace := trace + (steps + [Fired("onValidationFails")]);
        return env.fire("onValidationFails");
      }
      steps := steps + [Fired("afterValidation")];
      if IsFalse(env.fire("afterValidation")) {
        trace := trace + steps;
        return Bool(false);
      }
      steps := steps + [SaveModel];
      if !env.saves(model.value) {
        trace := trace + (steps + [Fired("onSaveFails")]);
        return env.fire("onSaveFails");
      }
      trace := trace + (steps + [Fired("afterSave")]);
      r := env.fire("afterSave");
    }

    method DeleteHandler(env: Env, id: Value) returns (r: Value)
      modifies this
      ensures var run := Delete(env, old(Current()), id);
        r == run.result && Current() == run.state && trace == old(trace) + run.trace
    {
      if IsFalse(env.fire("beforeDelete")) {
        trace := trace + [Fired("beforeDelete")];
        return Bool(false);
      }
      var steps := [Fired("beforeDelete"), FindFirst(id)];
      if !env.found(id) {
        model := None;
        trace := trace + (steps + [Fired("onResultsNotFound")]);
        return env.fire("onResultsNotFound");
      }
      model := Some(Stored(id));
      steps := steps + [DeleteModel];
      if !env.deletes(model.value) {
        trace := trace + (steps + [Fired("onDeleteFails")]);
        return env.fire("onDeleteFails");
      }
      trace := trace + (steps + [Fired("afterDelete")]);
      r := env.fire("afterDelete");
    }
  }
}

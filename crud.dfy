/**
 * CrudController: index, search, save and delete actions for one model
 * class and one form class. Each action is a chain of events; a strict
 * `false` from a gate event stops it, and the model is saved or deleted
 * only once every gate before it has passed. The events manager, the
 * request, the ORM and the form are given as an environment of answers.
 */
module Crud {
  import opened Wrappers
  import opened Php
  import opened Mvc

  const DEFAULT_PAGE_LIMIT: int := 10

  /** A form instance: the entity it was built for, whether it was built in edit mode, whether it was cleared. */
  datatype Form = Form(entity: Option<Model>, edit: bool, cleared: bool)

  /** What the paginator is given: the results, the page size and the page number. */
  datatype Page = Page(data: seq<Value>, limit: int, page: Value)

  /**
   * The controller's collaborators, by their answers: the events manager's
   * answer per event, the request (`isPost`, `getPost`, the `page` query
   * read as an int), the framework criteria built from posted data,
   * `find`, whether `findFirstById` finds a record, the form's `isValid`
   * and the model's `save` and `delete`.
   */
  datatype Env = Env(
    fire: string -> Value,
    isPost: bool,
    post: Value,
    pageQuery: Value,
    criteria: Value -> Value,
    find: Value -> seq<Value>,
    found: Value -> bool,
    formValid: (Value, Model) -> bool,
    saves: Model -> bool,
    deletes: Model -> bool)

  /** The controller's fields; `searchParams` is the persistent bag's entry. */
  datatype Snapshot = Snapshot(
    model: Option<Model>,
    form: Option<Form>,
    viewForm: Option<Form>,
    viewModel: Option<Model>,
    viewPage: Option<Page>,
    searchParams: Value,
    pageLimit: int)

  /** An action's answer, the fields afterwards and the interactions it had, in order. */
  datatype Run = Run(result: Value, state: Snapshot, trace: seq<Step>)

  /** `indexAction`: forgets the search, shows a new form. */
  function Index(env: Env, s: Snapshot): (r: Run)
    ensures AnswersLastEvent(env.fire, "beforeIndex", r.result, r.trace)
    ensures r.state.(searchParams := s.searchParams, form := s.form, viewForm := s.viewForm) == s
    ensures forall k :: 0 <= k < |r.trace| ==> r.trace[k].Fired?
  {
    if IsFalse(env.fire("beforeIndex")) then Run(Bool(false), s, [Fired("beforeIndex")])
    else
      var form := Form(None, false, false);
      Run(env.fire("afterIndex"), s.(searchParams := Null, form := Some(form), viewForm := Some(form)),
          [Fired("beforeIndex"), Fired("afterIndex")])
  }

  /** `searchAction`: a POST replaces the stored search and shows page 1; otherwise the stored search is paged by the query. */
  function Search(env: Env, s: Snapshot): (r: Run)
    ensures AnswersLastEvent(env.fire, "beforeSearch", r.result, r.trace)
    ensures r.state.(searchParams := s.searchParams, viewPage := s.viewPage) == s
    ensures SaveModel !in r.trace && DeleteModel !in r.trace && ClearForm !in r.trace
  {
    if IsFalse(env.fire("beforeSearch")) then Run(Bool(false), s, [Fired("beforeSearch")])
    else
      var searchParams := if env.isPost then env.criteria(env.post) else s.searchParams;
      var pageNumber := if env.isPost then Int(1) else env.pageQuery;
      var parameters := if Truthy(searchParams) then searchParams else Arr([]);
      var results := env.find(parameters);
      var s1 := s.(searchParams := searchParams);
      var t := [Fired("beforeSearch"), Find(parameters)];
      if |results| == 0 && IsFalse(env.fire("onSearchNotFound")) then
        Run(Bool(false), s1, t + [Fired("onSearchNotFound")])
      else
        var t1 := t + (if |results| == 0 then [Fired("onSearchNotFound")] else []);
        Run(env.fire("afterSearch"), s1.(viewPage := Some(Page(results, s.pageLimit, pageNumber))), t1 + [Fired("afterSearch")])
  }

  /** The second half of `saveAction`, once the model and the form are in place. */
  function SaveLoaded(env: Env, s: Snapshot, t: seq<Step>): (r: Run)
    requires s.model.Some? && s.form.Some?
    ensures |r.trace| > |t| && r.trace[..|t|] == t
    ensures r.trace[|r.trace| - 1].Fired? && r.result == env.fire(r.trace[|r.trace| - 1].event)
    ensures r.state.viewForm == r.state.form
    ensures r.state.form.Some? && r.state.form.value.(cleared := s.form.value.cleared) == s.form.value
    ensures r.state.viewModel == s.model && r.state.model == s.model
    ensures r.state.(form := s.form, viewForm := s.viewForm, viewModel := s.viewModel) == s
    ensures t != [] ==> r.trace[0] == t[0]
    ensures DeleteModel in r.trace ==> DeleteModel in t
  {
    var s1 := s.(viewForm := s.form, viewModel := s.model);
    var model := s.model.value;
    var t1 := t + [Fired("beforeValidation")];
    if IsFalse(env.fire("beforeValidation")) then Run(Bool(false), s1, t1)
    else
      var t2 := t1 + [Validated(env.post)];
      if !env.formValid(env.post, model) then
        Run(env.fire("onFormValidationFails"), s1, t2 + [Fired("onFormValidationFails")])
      else
        var t3 := t2 + [Fired("afterValidation")];
        if IsFalse(env.fire("afterValidation")) then Run(Bool(false), s1, t3)
        else
          var t4 := t3 + [SaveModel];
          if !env.saves(model) then Run(env.fire("onSaveFails"), s1, t4 + [Fired("onSaveFails")])
          else
            // the view holds the controller's form object, so clearing it clears the view's form too
            var cleared := Some(s1.form.value.(cleared := true));
            Run(env.fire("afterSave"), s1.(form := cleared, viewForm := cleared), t4 + [ClearForm, Fired("afterSave")])
  }

  /** `saveAction($id)`: a null id creates, any other id updates the record with that id. */
  function Save(env: Env, s: Snapshot, id: Value): (r: Run)
    ensures AnswersLastEvent(env.fire, "beforeSave", r.result, r.trace)
    ensures r.state.(model := s.model, form := s.form, viewForm := s.viewForm, viewModel := s.viewModel) == s
    ensures DeleteModel !in r.trace
    ensures SaveModel in r.trace ==> r.state.model == Some(if id != Null then Stored(id) else Fresh)
  {
    var t0 := [Fired("beforeSave")];
    if IsFalse(env.fire("beforeSave")) then Run(Bool(false), s, t0)
    else if !env.isPost then Run(env.fire("onSaveNotPostRequest"), s, t0 + [Fired("onSaveNotPostRequest")])
    else if id != Null then
      var t1 := t0 + [Fired("beforeSaveExisting")];
      if IsFalse(env.fire("beforeSaveExisting")) then Run(Bool(false), s.(model := Some(Fresh)), t1)
      else
        var t2 := t1 + [FindFirst(id)];
        if !env.found(id) then Run(env.fire("onSaveNotFound"), s.(model := None), t2 + [Fired("onSaveNotFound")])
        else SaveLoaded(env, s.(model := Some(Stored(id)), form := Some(Form(Some(Stored(id)), true, false))), t2)
    else
      var t1 := t0 + [Fired("beforeSaveNew")];
      if IsFalse(env.fire("beforeSaveNew")) then Run(Bool(false), s.(model := Some(Fresh)), t1)
      else SaveLoaded(env, s.(model := Some(Fresh), form := Some(Form(None, true, false))), t1)
  }

  /** `deleteAction($id)`. */
  function Delete(env: Env, s: Snapshot, id: Value): (r: Run)
    ensures AnswersLastEvent(env.fire, "beforeDelete", r.result, r.trace)
    ensures r.state.(model := s.model) == s
    ensures SaveModel !in r.trace && ClearForm !in r.trace
    ensures DeleteModel in r.trace ==> r.state.model == Some(Stored(id))
  {
    if IsFalse(env.fire("beforeDelete")) then Run(Bool(false), s, [Fired("beforeDelete")])
    else
      var t := [Fired("beforeDelete"), FindFirst(id)];
      if !env.found(id) then Run(env.fire("onDeleteNotFound"), s.(model := None), t + [Fired("onDeleteNotFound")])
      else
        var s1 := s.(model := Some(Stored(id)));
        var t1 := t + [DeleteModel];
        if !env.deletes(Stored(id)) then Run(env.fire("onDeleteFails"), s1, t1 + [Fired("onDeleteFails")])
        else Run(env.fire("afterDelete"), s1, t1 + [Fired("afterDelete")])
  }

  /** A strict `false` from an action's opening event ends it at once, with nothing else asked or changed. */
  lemma OpeningEventAborts(env: Env, s: Snapshot, id: Value)
    ensures IsFalse(env.fire("beforeIndex")) ==> Index(env, s) == Run(Bool(false), s, [Fired("beforeIndex")])
    ensures IsFalse(env.fire("beforeSearch")) ==> Search(env, s) == Run(Bool(false), s, [Fired("beforeSearch")])
    ensures IsFalse(env.fire("beforeSave")) ==> Save(env, s, id) == Run(Bool(false), s, [Fired("beforeSave")])
    ensures IsFalse(env.fire("beforeDelete")) ==> Delete(env, s, id) == Run(Bool(false), s, [Fired("beforeDelete")])
  {
  }

  /** Every gate of a save, in the order the action checks them. */
  predicate SaveGatesPass(env: Env, id: Value)
  {
    var model := if id != Null then Stored(id) else Fresh;
    && !IsFalse(env.fire("beforeSave"))
    && env.isPost
    && (id != Null ==> !IsFalse(env.fire("beforeSaveExisting")) && env.found(id))
    && (id == Null ==> !IsFalse(env.fire("beforeSaveNew")))
    && !IsFalse(env.fire("beforeValidation"))
    && env.formValid(env.post, model)
    && !IsFalse(env.fire("afterValidation"))
  }

  lemma SaveLoadedGates(env: Env, s: Snapshot, t: seq<Step>)
    requires s.model.Some? && s.form.Some?
    requires SaveModel !in t && ClearForm !in t && Fired("afterSave") !in t
    ensures var run := SaveLoaded(env, s, t);
      && (SaveModel in run.trace <==>
           !IsFalse(env.fire("beforeValidation")) && env.formValid(env.post, s.model.value) && !IsFalse(env.fire("afterValidation")))
      && (ClearForm in run.trace <==> SaveModel in run.trace && env.saves(s.model.value))
      && (Fired("afterSave") in run.trace <==> ClearForm in run.trace)
  {
  }

  /**
   * `model->save()` is attempted exactly when every gate has passed; the
   * form is cleared and `afterSave` fired exactly when that save succeeds.
   */
  lemma SaveOnlyPastEveryGate(env: Env, s: Snapshot, id: Value)
    ensures var run := Save(env, s, id);
      var model := if id != Null then Stored(id) else Fresh;
      && (SaveModel in run.trace <==> SaveGatesPass(env, id))
      && (ClearForm in run.trace <==> SaveGatesPass(env, id) && env.saves(model))
      && (Fired("afterSave") in run.trace <==> ClearForm in run.trace)
  {
    if !IsFalse(env.fire("beforeSave")) && env.isPost {
      if id != Null {
        if !IsFalse(env.fire("beforeSaveExisting")) && env.found(id) {
          var t := [Fired("beforeSave"), Fired("beforeSaveExisting"), FindFirst(id)];
          assert [Fired("beforeSave")] + [Fired("beforeSaveExisting")] + [FindFirst(id)] == t;
          SaveLoadedGates(env, s.(model := Some(Stored(id)), form := Some(Form(Some(Stored(id)), true, false))), t);
        }
      } else if !IsFalse(env.fire("beforeSaveNew")) {
        var t := [Fired("beforeSave"), Fired("beforeSaveNew")];
        assert [Fired("beforeSave")] + [Fired("beforeSaveNew")] == t;
        SaveLoadedGates(env, s.(model := Some(Fresh), form := Some(Form(None, true, false))), t);
      }
    }
  }

  /** A save that is not a POST answers what `onSaveNotPostRequest` answers and saves nothing. */
  lemma SaveNeedsPost(env: Env, s: Snapshot, id: Value)
    requires !IsFalse(env.fire("beforeSave")) && !env.isPost
    ensures Save(env, s, id) == Run(env.fire("onSaveNotPostRequest"), s, [Fired("beforeSave"), Fired("onSaveNotPostRequest")])
  {
  }

  /**
   * A delete whose record is missing answers what `onDeleteNotFound`
   * answers without attempting a delete; `afterDelete` fires exactly when
   * a delete was attempted and succeeded.
   */
  lemma DeleteOnlyWhenFound(env: Env, s: Snapshot, id: Value)
    ensures var run := Delete(env, s, id);
      && (!IsFalse(env.fire("beforeDelete")) && !env.found(id) ==>
            run.result == env.fire("onDeleteNotFound") && run.state.model == None)
      && (DeleteModel in run.trace <==> !IsFalse(env.fire("beforeDelete")) && env.found(id))
      && (Fired("afterDelete") in run.trace <==> DeleteModel in run.trace && env.deletes(Stored(id)))
      && (!IsFalse(env.fire("beforeDelete")) && env.found(id) && !env.deletes(Stored(id)) ==>
            run.result == env.fire("onDeleteFails"))
  {
  }

  /** `indexAction` clears the stored search and touches nothing else but the form. */
  lemma IndexForgetsSearch(env: Env, s: Snapshot)
    requires !IsFalse(env.fire("beforeIndex"))
    ensures var run := Index(env, s);
      run.state.searchParams == Null && run.state.form == Some(Form(None, false, false))
      && run.state.(searchParams := s.searchParams, form := s.form, viewForm := s.viewForm) == s
      && run.result == env.fire("afterIndex")
  {
  }

  /**
   * A search past its opening event: a POST stores the new criteria and
   * pages from 1, any other request keeps the stored criteria and takes
   * the page from the query. The query is the stored criteria, or no
   * criteria when they are empty; the page size is the controller's. With
   * no results, a strict `false` from `onSearchNotFound` ends the search.
   */
  lemma SearchPaging(env: Env, s: Snapshot)
    requires !IsFalse(env.fire("beforeSearch"))
    ensures var run := Search(env, s);
      var params := if Truthy(run.state.searchParams) then run.state.searchParams else Arr([]);
      var results := env.find(params);
      && (env.isPost ==> run.state.searchParams == env.criteria(env.post))
      && (!env.isPost ==> run.state.searchParams == s.searchParams)
      && Find(params) in run.trace
      && (|results| == 0 && IsFalse(env.fire("onSearchNotFound")) ==>
            run.result == Bool(false) && run.state.viewPage == s.viewPage)
      && (!(|results| == 0 && IsFalse(env.fire("onSearchNotFound"))) ==>
            run.result == env.fire("afterSearch")
            && run.state.viewPage == Some(Page(results, s.pageLimit, if env.isPost then Int(1) else env.pageQuery)))
  {
  }

  /**
   * The controller's own handlers, the only listener attached by default:
   * each event's answer and the forward it makes. The not-found and
   * not-POST handlers go back to the index, a failed validation to the
   * edit page, a failed save or delete to the edit page of the model's id.
   */
  function DefaultListener(event: string, controllerName: string, modelId: Value): (r: (Value, Option<Target>))
    ensures r.0 != Bool(false)
  {
    if event in {"onResultsNotFound", "onSearchNotFound", "onEditNotFound", "onSaveNotFound", "onDeleteNotFound", "onSaveNotPostRequest"} then
      (Bool(true), Some(ForwardTarget(controllerName + "/index")))
    else if event == "onFormValidationFails" then (Bool(true), Some(ForwardTarget(controllerName + "/edit")))
    else if event in {"onSaveFails", "onDeleteFails"} then
      (Bool(true), Some(ForwardTarget(controllerName + "/edit/" + ToStr(modelId))))
    else if event in {"afterSave", "afterDelete"} then (Null, Some(ForwardTarget(controllerName + "/index")))
    else (Null, None)
  }

  /** With the default handlers a failed save lands on the edit action with the model's id as its one param. */
  lemma DefaultSaveFailureEditsModel(controllerName: string, modelId: Value)
    requires '/' !in controllerName && '/' !in ToStr(modelId)
    ensures DefaultListener("onSaveFails", controllerName, modelId)
      == (Bool(true), Some(Target(controllerName, Some("edit"), [ToStr(modelId)])))
  {
    ForwardWithParam(controllerName, "edit", ToStr(modelId));
    assert controllerName + "/edit/" + ToStr(modelId) == controllerName + "/" + "edit" + "/" + ToStr(modelId);
  }

  /** The CRUD controller. */
  class CrudController {
    const className: string
    const formClass: Value
    const modelClass: Value
    var model: Option<Model>
    var form: Option<Form>
    var viewForm: Option<Form>
    var viewModel: Option<Model>
    var viewPage: Option<Page>
    /** The persistent bag's `searchParams`. */
    var searchParams: Value
    var pageLimit: int
    /** The interactions of every action so far. */
    var trace: seq<Step>

    constructor (className: string, formClass: Value, modelClass: Value, storedSearch: Value)
      ensures this.className == className && this.formClass == formClass && this.modelClass == modelClass
      ensures Current() == Snapshot(None, None, None, None, None, storedSearch, DEFAULT_PAGE_LIMIT)
      ensures trace == []
    {
      this.className := className;
      this.formClass := formClass;
      this.modelClass := modelClass;
      model := None;
      form := None;
      viewForm := None;
      viewModel := None;
      viewPage := None;
      searchParams := storedSearch;
      pageLimit := DEFAULT_PAGE_LIMIT;
      trace := [];
    }

    function Current(): Snapshot
      reads this
    {
      Snapshot(model, form, viewForm, viewModel, viewPage, searchParams, pageLimit)
    }

    /** `initialize`: fails exactly when the form class or the model class is empty. */
    function Initialize(): (r: Result<(), string>)
      ensures r.Failure? <==> IsEmpty(formClass) || IsEmpty(modelClass)
      ensures r.Failure? ==> r.error == className + "::formClass and " + className + "::modelClass must be set (with full namespaces)"
    {
      var r := RequireClasses(className, "formClass", formClass, modelClass);
      assert r.Failure? ==> r.error == className + "::formClass and " + className + "::modelClass must be set (with full namespaces)";
      r
    }

    method SetPageLimit(limit: int)
      modifies this`pageLimit
      ensures pageLimit == limit
    {
      pageLimit := limit;
    }

    method IndexAction(env: Env) returns (r: Value)
      modifies this
      ensures var run := Index(env, old(Current()));
        r == run.result && Current() == run.state && trace == old(trace) + run.trace
    {
      if IsFalse(env.fire("beforeIndex")) {
        trace := trace + [Fired("beforeIndex")];
        return Bool(false);
      }
      searchParams := Null;
      form := Some(Form(None, false, false));
      viewForm := form;
      trace := trace + [Fired("beforeIndex"), Fired("afterIndex")];
      r := env.fire("afterIndex");
    }

    method SearchAction(env: Env) returns (r: Value)
      modifies this
      ensures var run := Search(env, old(Current()));
        r == run.result && Current() == run.state && trace == old(trace) + run.trace
    {
      if IsFalse(env.fire("beforeSearch")) {
        trace := trace + [Fired("beforeSearch")];
        return Bool(false);
      }
      var pageNumber := Int(1);
      if env.isPost {
        searchParams := env.criteria(env.post);
      } else {
        pageNumber := env.pageQuery;
      }
      var parameters := Arr([]);
      if Truthy(searchParams) {
        parameters := searchParams;
      }
      var results := env.find(parameters);
      var steps := [Fired("beforeSearch"), Find(parameters)];
      if |results| == 0 {
        steps := steps + [Fired("onSearchNotFound")];
        if IsFalse(env.fire("onSearchNotFound")) {
          trace := trace + steps;
          return Bool(false);
        }
      }
      viewPage := Some(Page(results, pageLimit, pageNumber));
      trace := trace + (steps + [Fired("afterSearch")]);
      r := env.fire("afterSearch");
    }

    method SaveAction(env: Env, id: Value) returns (r: Value)
      modifies this
      ensures var run := Save(env, old(Current()), id);
        r == run.result && Current() == run.state && trace == old(trace) + run.trace
    {
      var steps := [Fired("beforeSave")];
      if IsFalse(env.fire("beforeSave")) {
        trace := trace + steps;
        return Bool(false);
      }
      if !env.isPost {
        trace := trace + (steps + [Fired("onSaveNotPostRequest")]);
        return env.fire("onSaveNotPostRequest");
      }
      model := Some(Fresh);
      if id != Null {
        steps := steps + [Fired("beforeSaveExisting")];
        if IsFalse(env.fire("beforeSaveExisting")) {
          trace := trace + steps;
          return Bool(false);
        }
        steps := steps + [FindFirst(id)];
        if !env.found(id) {
          model := None;
          trace := trace + (steps + [Fired("onSaveNotFound")]);
          return env.fire("onSaveNotFound");
        }
        model := Some(Stored(id));
        form := Some(Form(model, true, false));
      } else {
        steps := steps + [Fired("beforeSaveNew")];
        if IsFalse(env.fire("beforeSaveNew")) {
          trace := trace + steps;
          return Bool(false);
        }
        form := Some(Form(None, true, false));
      }
      r := SaveLoadedAction(env, steps);
    }

    /** The second half of `saveAction`, once the model and the form are in place. */
    method SaveLoadedAction(env: Env, steps: seq<Step>) returns (r: Value)
      requires model.Some? && form.Some?
      modifies this
      ensures var run := SaveLoaded(env, old(Current()), steps);
        r == run.result && Current() == run.state && trace == old(trace) + run.trace
    {
      var steps := steps;
      viewForm := form;
      viewModel := model;
      var data := env.post;
      steps := steps + [Fired("beforeValidation")];
      if IsFalse(env.fire("beforeValidation")) {
        trace := trace + steps;
        return Bool(false);
      }
      steps := steps + [Validated(data)];
      if !env.formValid(data, model.value) {
        trace := trace + (steps + [Fired("onFormValidationFails")]);
        return env.fire("onFormValidationFails");
      }
      steps := steps + [Fired("afterValidation")];
      if IsFalse(env.fire("afterValidation")) {
        trace := trace + steps;
        return Bool(false);
      }
      steps := steps + [SaveModel];
      if !env.saves(model.value) {
        trace := trace + (steps + [Fired("onSaveFails")]);
        return env.fire("onSaveFails");
      }
      form := Some(form.value.(cleared := true));
      viewForm := form;
      trace := trace + (steps + [ClearForm, Fired("afterSave")]);
      r := env.fire("afterSave");
    }

    method DeleteAction(env: Env, id: Value) returns (r: Value)
      modifies this
      ensures var run := Delete(env, old(Current()), id);
        r == run.result && Current() == run.state && trace == old(trace) + run.trace
    {
      if IsFalse(env.fire("beforeDelete")) {
        trace := trace + [Fired("beforeDelete")];
        return Bool(false);
      }
      var steps := [Fired("beforeDelete"), FindFirst(id)];
      if !env.found(id) {
        model := None;
        trace := trace + (steps + [Fired("onDeleteNotFound")]);
        return env.fire("onDeleteNotFound");
      }
      model := Some(Stored(id));
      steps := steps + [DeleteModel];
      if !env.deletes(model.value) {
        trace := trace + (steps + [Fired("onDeleteFails")]);
        return env.fire("onDeleteFails");
      }
      trace := trace + (steps + [Fired("afterDelete")]);
      r := env.fire("afterDelete");
    }
  }
}

/**
 * What the CRUD controller and the micro controller share: the
 * `forward(uri)` split into a dispatcher target, the class-name check of
 * `initialize`, and the vocabulary for what an action does with the
 * models, forms and events it talks to.
 */
module Mvc {
  import opened Wrappers
  import opened Php
  import Strings

  /** A dispatcher forward: controller, action (null when the URI has one segment) and params. */
  datatype Target = Target(controller: string, action: Option<string>, params: seq<string>)

  /** The model an action holds: a new instance of the model class, or the record found by id. */
  datatype Model = Fresh | Stored(id: Value)

  /** One interaction of an action with its collaborators, in the order it happens. */
  datatype Step =
    | Fired(event: string)          // the controller's events manager was asked
    | FindFirst(id: Value)          // `findFirstById`
    | Find(params: Value)           // `find`
    | Validated(data: Value)        // form or validation run on the submitted data
    | SaveModel                     // `model->save()` attempted
    | DeleteModel                   // `model->delete()` attempted
    | ClearForm                     // `form->clear()`

  /**
   * An action opens by firing its opening event and ends by firing an
   * event, and its answer is that last event's answer: every `return` in
   * the actions is either `fireEvent(...)` or the `false` that a gate
   * event has just answered.
   */
  predicate AnswersLastEvent(fire: string -> Value, opening: string, result: Value, trace: seq<Step>)
  {
    && |trace| >= 1
    && trace[0] == Fired(opening)
    && trace[|trace| - 1].Fired?
    && result == fire(trace[|trace| - 1].event)
  }

  /**
   * `forward(uri)`: the first `/` segment is the controller, the second
   * the action, the rest the params. It always answers true.
   */
  function ForwardTarget(uri: string): (t: Target)
    ensures '/' !in t.controller
    ensures t.action.Some? ==> '/' !in t.action.value
    ensures forall k :: 0 <= k < |t.params| ==> '/' !in t.params[k]
    ensures t.action.None? ==> t.params == [] && t.controller == uri
  {
    var parts := Strings.Split(uri, "/");
    Strings.SplitPiecesAvoid(uri, '/');
    if |parts| == 1 then
      Strings.JoinSplit(uri, "/");
      Target(parts[0], None, [])
    else
      Target(parts[0], Some(parts[1]), parts[2..])
  }

  /** The segments of a target, put back together. */
  function TargetUri(t: Target): string
  {
    if t.action.None? then t.controller
    else Strings.Join([t.controller, t.action.value] + t.params, "/")
  }

  /** Forwarding loses nothing: the segments rejoined with `/` are the URI. */
  lemma ForwardRejoins(uri: string)
    ensures TargetUri(ForwardTarget(uri)) == uri
  {
    var parts := Strings.Split(uri, "/");
    Strings.JoinSplit(uri, "/");
    if |parts| > 1 {
      assert [parts[0], parts[1]] + parts[2..] == parts;
    }
  }

  /** Any target whose segments avoid `/` is what forwarding its URI yields. */
  lemma ForwardOfTargetUri(t: Target)
    requires '/' !in t.controller
    requires t.action.Some? ==> '/' !in t.action.value
    requires t.action.None? ==> t.params == []
    requires forall k :: 0 <= k < |t.params| ==> '/' !in t.params[k]
    ensures ForwardTarget(TargetUri(t)) == t
  {
    if t.action.None? {
      Strings.SplitWithoutSeparator(t.controller, '/');
    } else {
      var parts := [t.controller, t.action.value] + t.params;
      assert forall k :: 0 <= k < |parts| ==> '/' !in parts[k] by {
        forall k | 0 <= k < |parts| ensures '/' !in parts[k] {
          if k >= 2 {
            assert parts[k] == t.params[k - 2];
          }
        }
      }
      Strings.SplitJoin(parts, '/');
      assert parts[2..] == t.params;
    }
  }

  /** `controller/action/param` reaches that controller and action with the one param. */
  lemma ForwardWithParam(controller: string, action: string, param: string)
    requires '/' !in controller && '/' !in action && '/' !in param
    ensures ForwardTarget(controller + "/" + action + "/" + param) == Target(controller, Some(action), [param])
  {
    var t := Target(controller, Some(action), [param]);
    ForwardOfTargetUri(t);
    assert [controller, action] + [param] == [controller, action, param];
    assert [controller, action, param][1..] == [action, param];
    assert [action, param][1..] == [param];
    assert Strings.Join([param], "/") == param;
    var tail := Strings.Join([action, param], "/");
    assert tail == action + "/" + param;
    assert TargetUri(t) == controller + "/" + tail;
    assert controller + "/" + tail == controller + "/" + action + "/" + param;
  }

  /**
   * `initialize`: both class names must be non-empty, else the argument
   * error names the controller's class and the two properties.
   */
  function RequireClasses(controllerClass: string, otherProperty: string, other: Value, modelClass: Value): (r: Result<(), string>)
    ensures r.Failure? <==> IsEmpty(other) || IsEmpty(modelClass)
    ensures r.Failure? ==>
      r.error == controllerClass + "::" + otherProperty + " and " + controllerClass + "::modelClass must be set (with full namespaces)"
  {
    if IsEmpty(other) || IsEmpty(modelClass) then
      Failure(controllerClass + "::" + otherProperty + " and " + controllerClass + "::modelClass must be set (with full namespaces)")
    else Success(())
  }
}

/**
 * AuthComponent: ACL-backed authorization for MVC and micro applications.
 * It falls back to a default role, builds the ACL from its options (or
 * reuses a cached one), asks the ACL whether the (role, controller,
 * action) triple is allowed and lets `afterAllowed` listeners veto.
 * The framework's ACL evaluation and events manager are oracles.
 */
module Auth {
  import opened Wrappers
  import opened Php
  import Strings

  const DEFAULT_ROLE: string := "Guest"
  const AFTER_ALLOWED: string := "auth:afterAllowed"
  const AFTER_DENIED: string := "auth:afterDenied"

  /** The methods listed for one controller: an array of names, or a bare name. */
  datatype Methods = Listed(names: seq<string>) | Single(name: string)

  /** `resources`: role => controller => methods, in option order. */
  type Resources = seq<(string, seq<(string, Methods)>)>

  /** The component options that are read; a missing list is empty. */
  datatype AuthOptions = AuthOptions(
    defaultRole: Option<string>,
    cacheService: Option<string>,
    defaultAction: Option<int>,
    roles: seq<string>,
    inheritance: seq<(string, string)>,
    resources: Resources)

  /** What the component puts into the framework's in-memory ACL, in the order it does so. */
  datatype Acl = Acl(
    defaultAction: Option<int>,
    roles: seq<string>,
    inherits: seq<(string, string)>,
    resources: seq<(string, seq<string>)>,
    allows: seq<(string, string, string)>)

  /** A micro application's active handler: the handler object's class and the method to run. */
  datatype Handler = Handler(className: string, methodName: string)

  /** `(array) $methods`: a bare name is a one-element list. */
  function MethodNames(m: Methods): seq<string>
  {
    match m
    case Listed(names) => names
    case Single(name) => [name]
  }

  /** `foreach ($methods as $method)` on the value as given: a bare string is not iterable and yields nothing. */
  function IteratedMethods(m: Methods): seq<string>
  {
    match m
    case Listed(names) => names
    case Single(_) => []
  }

  /** The methods allowed for one controller entry; `asWritten` selects the uncast iteration. */
  function EntryMethods(m: Methods, asWritten: bool): seq<string>
  {
    if asWritten then IteratedMethods(m) else MethodNames(m)
  }

  /** The allow triples of one role's controller entries, in loop order. */
  function RoleAllows(role: string, controllers: seq<(string, Methods)>, asWritten: bool): seq<(string, string, string)>
    decreases |controllers|
  {
    if controllers == [] then []
    else
      var (controller, methods) := controllers[|controllers| - 1];
      var names := EntryMethods(methods, asWritten);
      RoleAllows(role, controllers[..|controllers| - 1], asWritten)
        + seq(|names|, k requires 0 <= k < |names| => (role, controller, names[k]))
  }

  /** The allow triples of all resources, in loop order. */
  function ExpandAllows(resources: Resources, asWritten: bool): seq<(string, string, string)>
    decreases |resources|
  {
    if resources == [] then []
    else
      var (role, controllers) := resources[|resources| - 1];
      ExpandAllows(resources[..|resources| - 1], asWritten) + RoleAllows(role, controllers, asWritten)
  }

  /** The allow triples the source's loop produces. */
  function AllowsAsWritten(resources: Resources): seq<(string, string, string)>
  {
    ExpandAllows(resources, true)
  }

  /** The allow triples when every listed method is allowed, the list cast as for `addResource`. */
  function Allows(resources: Resources): seq<(string, string, string)>
  {
    ExpandAllows(resources, false)
  }

  /** The resources added for one role's controller entries: each controller with its cast method list. */
  function RoleResources(controllers: seq<(string, Methods)>): seq<(string, seq<string>)>
    decreases |controllers|
  {
    if controllers == [] then []
    else
      var (controller, methods) := controllers[|controllers| - 1];
      RoleResources(controllers[..|controllers| - 1]) + [(controller, MethodNames(methods))]
  }

  function ResourceList(resources: Resources): seq<(string, seq<string>)>
    decreases |resources|
  {
    if resources == [] then []
    else ResourceList(resources[..|resources| - 1]) + RoleResources(resources[|resources| - 1].1)
  }

  /** The ACL built from the options, when no cached one is used. */
  function BuiltAcl(options: AuthOptions): Acl
  {
    Acl(options.defaultAction, options.roles, options.inheritance,
        ResourceList(options.resources), Allows(options.resources))
  }

  /** A listed method of one role's controller entry is allowed, and nothing else is. */
  lemma {:induction false} RoleAllowsExactly(role: string, controllers: seq<(string, Methods)>, t: (string, string, string))
    ensures t in RoleAllows(role, controllers, false) <==>
      t.0 == role && exists j :: 0 <= j < |controllers| && controllers[j].0 == t.1 && t.2 in MethodNames(controllers[j].1)
    decreases |controllers|
  {
    if controllers != [] {
      var init := controllers[..|controllers| - 1];
      var (controller, methods) := controllers[|controllers| - 1];
      var names := MethodNames(methods);
      var last := seq(|names|, k requires 0 <= k < |names| => (role, controller, names[k]));
      RoleAllowsExactly(role, init, t);
      assert t in last <==> t.0 == role && t.1 == controller && t.2 in names by {
        if t.2 in names {
          var k :| 0 <= k < |names| && names[k] == t.2;
          assert last[k] == (role, controller, t.2);
        }
      }
      if t.0 == role && t.1 == controller && t.2 in names {
        assert controllers[|controllers| - 1].0 == t.1;
      }
      forall j | 0 <= j < |init| ensures init[j] == controllers[j] { }
      if t.0 == role && (exists j :: 0 <= j < |controllers| && controllers[j].0 == t.1 && t.2 in MethodNames(controllers[j].1)) {
        var j :| 0 <= j < |controllers| && controllers[j].0 == t.1 && t.2 in MethodNames(controllers[j].1);
        if j < |init| {
          assert init[j] == controllers[j];
        }
      }
    }
  }

  /** Some role => controller => methods entry lists the triple's method under its role and controller. */
  predicate ListedIn(resources: Resources, t: (string, string, string))
  {
    exists i, j :: 0 <= i < |resources| && 0 <= j < |resources[i].1|
      && resources[i].0 == t.0 && resources[i].1[j].0 == t.1 && t.2 in MethodNames(resources[i].1[j].1)
  }

  /** The last entry's listed methods under its own role. */
  predicate LastListed(resources: Resources, t: (string, string, string))
    requires resources != []
  {
    var (role, controllers) := resources[|resources| - 1];
    t.0 == role && exists j :: 0 <= j < |controllers| && controllers[j].0 == t.1 && t.2 in MethodNames(controllers[j].1)
  }

  /** What an earlier entry lists, the whole list lists. */
  lemma ListedInInit(resources: Resources, t: (string, string, string))
    requires resources != [] && ListedIn(resources[..|resources| - 1], t)
    ensures ListedIn(resources, t)
  {
    var init := resources[..|resources| - 1];
    var i, j :| 0 <= i < |init| && 0 <= j < |init[i].1|
      && init[i].0 == t.0 && init[i].1[j].0 == t.1 && t.2 in MethodNames(init[i].1[j].1);
    assert resources[i] == init[i];
  }

  /** What the last entry lists, the whole list lists. */
  lemma ListedInLast(resources: Resources, t: (string, string, string))
    requires resources != [] && LastListed(resources, t)
    ensures ListedIn(resources, t)
  {
    var controllers := resources[|resources| - 1].1;
    var j :| 0 <= j < |controllers| && controllers[j].0 == t.1 && t.2 in MethodNames(controllers[j].1);
    assert resources[|resources| - 1].1[j] == controllers[j];
  }

  /** Whatever the list lists, an earlier entry or the last one does. */
  lemma ListedSomewhere(resources: Resources, t: (string, string, string))
    requires resources != [] && ListedIn(resources, t)
    ensures ListedIn(resources[..|resources| - 1], t) || LastListed(resources, t)
  {
    var init := resources[..|resources| - 1];
    var i, j :| 0 <= i < |resources| && 0 <= j < |resources[i].1|
      && resources[i].0 == t.0 && resources[i].1[j].0 == t.1 && t.2 in MethodNames(resources[i].1[j].1);
    if i < |init| {
      assert init[i] == resources[i];
    }
  }

  /**
   * For every role => controller => methods entry, each listed method is
   * allowed for that role and controller, and every allow comes from such
   * an entry.
   */
  lemma {:induction false} AllowsExactlyListed(resources: Resources, t: (string, string, string))
    ensures t in Allows(resources) <==> ListedIn(resources, t)
    decreases |resources|
  {
    if resources != [] {
      var init := resources[..|resources| - 1];
      var (role, controllers) := resources[|resources| - 1];
      AllowsExactlyListed(init, t);
      RoleAllowsExactly(role, controllers, t);
      assert Allows(resources) == Allows(init) + RoleAllows(role, controllers, false);
      if ListedIn(resources, t) {
        ListedSomewhere(resources, t);
      }
      if ListedIn(init, t) {
        ListedInInit(resources, t);
      }
      if LastListed(resources, t) {
        ListedInLast(resources, t);
      }
    }
  }

  /**
   * The source's loop allows nothing for a controller whose methods are a
   * bare name, although the resource is added with that name.
   */
  lemma ScalarMethodListAllowsNothing()
    ensures var res: Resources := [("Guest", [("Index", Single("index"))])];
      AllowsAsWritten(res) == [] && ResourceList(res) == [("Index", ["index"])]
      && Allows(res) == [("Guest", "Index", "index")]
  {
    var res: Resources := [("Guest", [("Index", Single("index"))])];
    assert res[..0] == [];
    assert res[0].1[..0] == [];
  }

  /** The sample configuration's resources: role => controller => actions. */
  function ExampleResources(): Resources
  {
    [("Guest", [("Index", Listed(["index"]))]),
     ("User", [("Account", Listed(["create", "read", "update"]))]),
     ("Admin", [("Account", Listed(["delete", "index"])),
                ("Orders", Listed(["create", "delete", "index", "read", "update"]))])]
  }

  /** On the sample configuration: admins may delete orders, guests may not read accounts. */
  lemma ExampleAllows()
    ensures ("Admin", "Orders", "delete") in Allows(ExampleResources())
    ensures ("Guest", "Account", "read") !in Allows(ExampleResources())
  {
    var res := ExampleResources();
    AllowsExactlyListed(res, ("Admin", "Orders", "delete"));
    assert res[2].1[1].1.names[1] == "delete";
    AllowsExactlyListed(res, ("Guest", "Account", "read"));
  }

  /** The two loops agree whenever every method list is an array. */
  lemma {:induction false} AsWrittenAgreesOnLists(resources: Resources)
    requires forall i, j :: 0 <= i < |resources| && 0 <= j < |resources[i].1| ==> resources[i].1[j].1.Listed?
    ensures AllowsAsWritten(resources) == Allows(resources)
    decreases |resources|
  {
    if resources != [] {
      var init := resources[..|resources| - 1];
      assert forall i, j :: 0 <= i < |init| && 0 <= j < |init[i].1| ==> init[i].1[j].1.Listed? by {
        forall i, j | 0 <= i < |init| && 0 <= j < |init[i].1| ensures init[i].1[j].1.Listed? {
          assert init[i] == resources[i];
        }
      }
      AsWrittenAgreesOnLists(init);
      var (role, controllers) := resources[|resources| - 1];
      assert forall j :: 0 <= j < |controllers| ==> controllers[j].1.Listed?;
      RoleAllowsAgree(role, controllers);
    }
  }

  lemma {:induction false} RoleAllowsAgree(role: string, controllers: seq<(string, Methods)>)
    requires forall j :: 0 <= j < |controllers| ==> controllers[j].1.Listed?
    ensures RoleAllows(role, controllers, true) == RoleAllows(role, controllers, false)
    decreases |controllers|
  {
    if controllers != [] {
      RoleAllowsAgree(role, controllers[..|controllers| - 1]);
      assert controllers[|controllers| - 1].1.Listed?;
    }
  }

  /**
   * `getAcl()`'s build: the default action, the roles, the inheritance
   * pairs, then for each role and controller the resource and one allow
   * per listed method.
   */
  method BuildAcl(options: AuthOptions) returns (acl: Acl)
    ensures acl == BuiltAcl(options)
  {
    var roles: seq<string> := [];
    for k := 0 to |options.roles|
      invariant roles == options.roles[..k]
    {
      roles := roles + [options.roles[k]];
    }
    var inherits: seq<(string, string)> := [];
    for k := 0 to |options.inheritance|
      invariant inherits == options.inheritance[..k]
    {
      inherits := inherits + [options.inheritance[k]];
    }
    var added: seq<(string, seq<string>)> := [];
    var allows: seq<(string, string, string)> := [];
    var res := options.resources;
    for i := 0 to |res|
      invariant added == ResourceList(res[..i])
      invariant allows == Allows(res[..i])
    {
      assert res[..i + 1][..i] == res[..i];
      var (role, controllers) := res[i];
      ghost var before := allows;
      ghost var addedBefore := added;
      for j := 0 to |controllers|
        invariant added == addedBefore + RoleResources(controllers[..j])
        invariant allows == before + RoleAllows(role, controllers[..j], false)
      {
        assert controllers[..j + 1][..j] == controllers[..j];
        var (controller, methods) := controllers[j];
        added := added + [(controller, MethodNames(methods))];
        var names := MethodNames(methods);
        ghost var mid := allows;
        for k := 0 to |names|
          invariant allows == mid + seq(k, n requires 0 <= n < k => (role, controller, names[n]))
        {
          allows := allows + [(role, controller, names[k])];
        }
      }
      assert controllers[..|controllers|] == controllers;
    }
    assert res[..|res|] == res;
    acl := Acl(options.defaultAction, roles, inherits, added, allows);
  }

  /** `ucfirst`: the first character upper-cased when it is a lower-case ASCII letter. */
  function UpperFirst(s: string): (r: string)
    ensures |r| == |s| && (s != [] ==> r[1..] == s[1..])
    ensures s != [] && 'a' <= s[0] <= 'z' ==> r[0] as int == s[0] as int - 32 && 'A' <= r[0] <= 'Z'
    ensures s != [] && !('a' <= s[0] <= 'z') ==> r[0] == s[0]
  {
    if s != [] && 'a' <= s[0] <= 'z' then [(s[0] as int - 32) as char] + s[1..] else s
  }

  /**
   * `getController()`: in a micro application the handler class's last
   * namespace segment with every "Controller" removed, else the
   * dispatcher's controller name with its first letter upper-cased.
   */
  function ControllerName(app: Option<Handler>, dispatcherController: string): (name: string)
    ensures app.Some? ==> '\\' !in name
    ensures app.Some? ==> exists seg :: IsLastSegment(app.value.className, seg) && name == Strings.ReplaceAll(seg, "Controller", "")
    ensures app.None? ==> name == UpperFirst(dispatcherController)
  {
    if app.Some? then
      var last := Strings.Last(Strings.Split(app.value.className, "\\"));
      LastPieceIsLastSegment(app.value.className);
      Strings.RemoveAvoids(last, "Controller", '\\');
      Strings.ReplaceAll(last, "Controller", "")
    else UpperFirst(dispatcherController)
  }

  /** `seg` is what follows the last `\` of `className`: all of it when there is none. */
  ghost predicate IsLastSegment(className: string, seg: string)
  {
    '\\' !in seg && exists pre :: className == pre + seg && (pre == "" || pre[|pre| - 1] == '\\')
  }

  /** The last piece of `explode('\\', className)` is its last segment. */
  lemma LastPieceIsLastSegment(className: string)
    ensures IsLastSegment(className, Strings.Last(Strings.Split(className, "\\")))
  {
    var parts := Strings.Split(className, "\\");
    Strings.SplitPiecesAvoid(className, '\\');
    assert '\\' !in Strings.Last(parts);
    Strings.JoinSplit(className, "\\");
    var pre := Strings.JoinEndsWithLast(parts, "\\");
    assert className == pre + Strings.Last(parts);
  }

  /** A class name has one last segment, so the micro controller name is determined by it. */
  lemma LastSegmentUnique(className: string, a: string, b: string)
    requires IsLastSegment(className, a) && IsLastSegment(className, b)
    ensures a == b
  {
    var pa :| className == pa + a && (pa == "" || pa[|pa| - 1] == '\\');
    var pb :| className == pb + b && (pb == "" || pb[|pb| - 1] == '\\');
    SegmentNoLonger(className, pa, a, pb, b);
    SegmentNoLonger(className, pb, b, pa, a);
    assert a == className[|pa|..] && b == className[|pb|..];
  }

  /** A `\`-free suffix is no longer than one that follows a `\`. */
  lemma SegmentNoLonger(className: string, pa: string, a: string, pb: string, b: string)
    requires className == pa + a && (pa == "" || pa[|pa| - 1] == '\\')
    requires className == pb + b && '\\' !in b
    ensures |b| <= |a|
  {
    assert forall j :: |pb| <= j < |className| ==> className[j] == b[j - |pb|];
    assert pa != "" ==> className[|pa| - 1] == '\\';
  }

  /** `getAction()`: the handler's method in a micro application, else the dispatcher's action name. */
  function ActionName(app: Option<Handler>, dispatcherAction: string): (a: string)
    ensures app.Some? ==> a == app.value.methodName
    ensures app.None? ==> a == dispatcherAction
  {
    if app.Some? then app.value.methodName else dispatcherAction
  }

  /** The role `getRole` settles on: the stored one when truthy, else the default role. */
  function EffectiveRole(stored: Value, defaultRole: string): (r: Value)
    ensures Truthy(stored) ==> r == stored
    ensures !Truthy(stored) ==> r == Str(defaultRole)
  {
    if Truthy(stored) then stored else Str(defaultRole)
  }

  /** The ACL that `getAcl` returns: the cached one when a cache is configured and holds one, else a fresh build. */
  function AclFor(options: AuthOptions, cached: Option<Acl>): (acl: Acl)
    ensures options.cacheService.None? || cached.None? ==> acl == BuiltAcl(options)
    ensures options.cacheService.Some? && cached.Some? ==> acl == cached.value
  {
    if options.cacheService.Some? && cached.Some? then cached.value else BuiltAcl(options)
  }

  /**
   * The value of `authorized` after `authorize`: when the ACL allows, true
   * unless some `afterAllowed` response is strictly false; when it denies,
   * the previous value, since the field is only assigned when allowed.
   */
  function Decision(wasAuthorized: bool, allowed: bool, responses: seq<Value>): (r: bool)
    ensures allowed ==> (r <==> forall k :: 0 <= k < |responses| ==> !IsFalse(responses[k]))
    ensures !allowed ==> r == wasAuthorized
  {
    if allowed then forall k :: 0 <= k < |responses| ==> !IsFalse(responses[k]) else wasAuthorized
  }

  /** The field is sticky: after one allowed call a denied call on the same component still answers true. */
  lemma StickyAuthorized(responses: seq<Value>, later: seq<Value>)
    requires forall k :: 0 <= k < |responses| ==> !IsFalse(responses[k])
    ensures Decision(Decision(false, true, responses), false, later)
  {
  }

  /** The authorization component. */
  class AuthComponent {
    var authorized: bool
    var defaultRole: string
    var options: AuthOptions
    /** The `role` entry of the component's persistent session bag. */
    var persistentRole: Value
    /** The micro application's active handler, once `call` has run. */
    var app: Option<Handler>
    /** The `acl` entry of the configured cache backend. */
    var cachedAcl: Option<Acl>

    /** `new AuthComponent($options)`, given the session's stored role and the cache's `acl` entry. */
    constructor (options: AuthOptions, storedRole: Value, cachedAcl: Option<Acl>)
      ensures !authorized && this.options == options && app == None
      ensures defaultRole == (if options.defaultRole.Some? then options.defaultRole.value else DEFAULT_ROLE)
      ensures persistentRole == storedRole && this.cachedAcl == cachedAcl
    {
      authorized := false;
      defaultRole := if options.defaultRole.Some? then options.defaultRole.value else DEFAULT_ROLE;
      this.options := options;
      persistentRole := storedRole;
      app := None;
      this.cachedAcl := cachedAcl;
    }

    /** `setOptions`: the options are replaced; the default role changes only when one is given. */
    method SetOptions(newOptions: AuthOptions)
      modifies this`options, this`defaultRole
      ensures options == newOptions
      ensures defaultRole == (if newOptions.defaultRole.Some? then newOptions.defaultRole.value else old(defaultRole))
    {
      if newOptions.defaultRole.Some? {
        SetDefaultRole(newOptions.defaultRole.value);
      }
      options := newOptions;
    }

    method SetDefaultRole(role: string)
      modifies this`defaultRole
      ensures defaultRole == role
    {
      defaultRole := role;
    }

    method SetRole(role: Value)
      modifies this`persistentRole
      ensures persistentRole == role
    {
      persistentRole := role;
    }

    /** `getRole`: a missing or falsy stored role is replaced by the default role and stored. */
    method GetRole() returns (role: Value)
      modifies this`persistentRole
      ensures role == EffectiveRole(old(persistentRole), defaultRole) && persistentRole == role
    {
      if !Truthy(persistentRole) {
        persistentRole := Str(defaultRole);
      }
      role := persistentRole;
    }

    /** `getAcl`: a cached ACL is returned as is; a built one is saved under `acl` when a cache is configured. */
    method GetAcl() returns (acl: Acl)
      modifies this`cachedAcl
      ensures acl == AclFor(options, old(cachedAcl))
      ensures cachedAcl == (if options.cacheService.Some? then Some(acl) else old(cachedAcl))
    {
      var found: Option<Acl> := None;
      if options.cacheService.Some? {
        found := cachedAcl;
      }
      if found.Some? {
        return found.value;
      }
      acl := BuildAcl(options);
      if options.cacheService.Some? {
        cachedAcl := Some(acl);
      }
    }

    /**
     * `authorize()` with the framework's `isAllowed` and the responses the
     * `afterAllowed` listeners give. `fired` is the events raised, in order:
     * `afterDenied` is raised exactly when the answer is false.
     */
    method Authorize(dispatcherController: string, dispatcherAction: string,
                     isAllowed: (Acl, Value, string, string) -> bool, responses: seq<Value>)
      returns (r: bool, fired: seq<string>)
      modifies this`authorized, this`persistentRole, this`cachedAcl
      ensures var allowed := isAllowed(AclFor(options, old(cachedAcl)), EffectiveRole(old(persistentRole), defaultRole),
                                       ControllerName(app, dispatcherController), ActionName(app, dispatcherAction));
        && r == authorized && r == Decision(old(authorized), allowed, responses)
        && fired == (if allowed then [AFTER_ALLOWED] else []) + (if r then [] else [AFTER_DENIED])
      ensures persistentRole == EffectiveRole(old(persistentRole), defaultRole)
      ensures cachedAcl == (if options.cacheService.Some? then Some(AclFor(options, old(cachedAcl))) else old(cachedAcl))
    {
      var role := GetRole();
      var controller := ControllerName(app, dispatcherController);
      var action := ActionName(app, dispatcherAction);
      var acl := GetAcl();
      var allowed := isAllowed(acl, role, controller, action);
      fired := [];
      if allowed {
        authorized := true;
        fired := [AFTER_ALLOWED];
        for k := 0 to |responses|
          invariant authorized == forall n :: 0 <= n < k ==> !IsFalse(responses[n])
          modifies this`authorized
        {
          if IsFalse(responses[k]) {
            authorized := false;
          }
        }
      }
      if !authorized {
        fired := fired + [AFTER_DENIED];
      }
      r := authorized;
    }

    /** `call($app)`: the micro middleware entry point records the application's handler, then authorizes. */
    method Call(handler: Handler, isAllowed: (Acl, Value, string, string) -> bool, responses: seq<Value>)
      returns (r: bool, fired: seq<string>)
      modifies this`app, this`authorized, this`persistentRole, this`cachedAcl
      ensures app == Some(handler)
      ensures persistentRole == EffectiveRole(old(persistentRole), defaultRole)
      ensures cachedAcl == (if options.cacheService.Some? then Some(AclFor(options, old(cachedAcl))) else old(cachedAcl))
      ensures var allowed := isAllowed(AclFor(options, old(cachedAcl)), EffectiveRole(old(persistentRole), defaultRole),
                                       ControllerName(app, ""), ActionName(app, ""));
        && r == authorized && r == Decision(old(authorized), allowed, responses)
        && fired == (if allowed then [AFTER_ALLOWED] else []) + (if r then [] else [AFTER_DENIED])
    {
      app := Some(handler);
      r, fired := Authorize("", "", isAllowed, responses);
    }
  }
}

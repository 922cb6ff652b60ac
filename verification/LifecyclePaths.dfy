/** Lifecycle paths: the proxy in front rewrites a workload's path to `/sdrc/<workload><path>`, and
    the router behind it has to recover both parts.  Paths are what is left after URL splitting. */
module LifecyclePaths {

  const PREFIX := "/sdrc"

  predicate StartsWith(s: string, prefix: string) {
    |prefix| <= |s| && s[..|prefix|] == prefix
  }

  /** Absolute, and without a slash at the end unless it is the root. */
  predicate Normal(p: string) {
    p != [] && p[0] == '/' && (|p| > 1 ==> p[|p| - 1] != '/')
  }

  function Absolute(path: string): string {
    if path == [] then "/" else if path[0] == '/' then path else "/" + path
  }

  function TrimEnd(p: string): string {
    if |p| > 1 && p[|p| - 1] == '/' then TrimEnd(p[..|p| - 1]) else p
  }

  /** Trimming takes off slashes and nothing else. */
  lemma {:induction false} TrimEndTakesSlashes(p: string)
    requires p != [] && p[0] == '/'
    ensures Normal(TrimEnd(p)) && TrimEnd(p) <= p
    ensures forall i :: |TrimEnd(p)| <= i < |p| ==> p[i] == '/'
  {
    if |p| > 1 && p[|p| - 1] == '/' {
      TrimEndTakesSlashes(p[..|p| - 1]);
    }
  }

  function EnvoyPath(path: string): (r: string)
    ensures Normal(r)
  {
    TrimEndTakesSlashes(Absolute(path));
    TrimEnd(Absolute(path))
  }

  /** The normal paths are exactly the ones left as they are. */
  lemma NormalIsFixed(path: string)
    ensures Normal(path) <==> EnvoyPath(path) == path
  {
  }

  /** `_normalize_envoy_lifecycle_path`. */
  method NormalizePath(path: string) returns (normalized: string)
    ensures normalized == EnvoyPath(path)
  {
    normalized := if path == [] then "/" else path;
    if normalized[0] != '/' {
      normalized := "/" + normalized;
    }
    assert normalized == Absolute(path);
    while |normalized| > 1 && normalized[|normalized| - 1] == '/'
      invariant TrimEnd(normalized) == EnvoyPath(path)
      decreases |normalized|
    {
      normalized := normalized[..|normalized| - 1];
    }
  }

  /** `_normalize_backend_lifecycle_path`: without the router's own prefix. */
  function BackendPath(path: string): (r: string)
    ensures Normal(r)
  {
    var p := EnvoyPath(path);
    if p == PREFIX then "/"
    else if StartsWith(p, PREFIX + "/") then
      assert p[|PREFIX|] == p[..|PREFIX| + 1][|PREFIX|] == '/';
      p[|PREFIX|..]
    else p
  }

  /** The prefix is taken off where there is one, and nothing else ever. */
  lemma BackendPathDropsPrefix(path: string)
    ensures EnvoyPath(path) == PREFIX ==> BackendPath(path) == "/"
    ensures StartsWith(EnvoyPath(path), PREFIX + "/") ==> EnvoyPath(path) == PREFIX + BackendPath(path)
    ensures EnvoyPath(path) != PREFIX && !StartsWith(EnvoyPath(path), PREFIX + "/") ==>
              BackendPath(path) == EnvoyPath(path)
  {
    var p := EnvoyPath(path);
    if p != PREFIX && StartsWith(p, PREFIX + "/") {
      assert p[..|PREFIX|] == p[..|PREFIX| + 1][..|PREFIX|] == PREFIX;
      assert p == p[..|PREFIX|] + p[|PREFIX|..];
    }
  }

  /** What normalizing does to any path: a slash in front if there is none, and every slash at the end
      taken off but for the root's. */
  lemma EnvoyPathMeans(path: string)
    ensures path == "" ==> EnvoyPath(path) == "/"
    ensures path != "" && path[0] != '/' ==> EnvoyPath(path) == EnvoyPath("/" + path)
    ensures path != "" && path[0] == '/' ==>
              EnvoyPath(path) <= path && forall i :: |EnvoyPath(path)| <= i < |path| ==> path[i] == '/'
  {
    TrimEndTakesSlashes(Absolute(path));
  }

  /** What the proxy in front sends on. */
  function RewritePath(workload: string, path: string): string {
    PREFIX + "/" + workload + BackendPath(path)
  }

  // ---------------------------------------------------------------- the router

  function StripStart(s: string): string {
    if s != [] && s[0] == '/' then StripStart(s[1..]) else s
  }

  function StripEnd(s: string): string {
    if s != [] && s[|s| - 1] == '/' then StripEnd(s[..|s| - 1]) else s
  }

  function FirstSlash(s: string): (i: nat)
    ensures i <= |s| && (i < |s| ==> s[i] == '/') && forall j :: 0 <= j < i ==> s[j] != '/'
  {
    if s == [] || s[0] == '/' then 0 else 1 + FirstSlash(s[1..])
  }

  /** The workload and backend path that the router reads off what follows `/sdrc/`. */
  function Route(path: string): (string, string) {
    var s := StripEnd(StripStart(path));
    var i := FirstSlash(s);
    (s[..i], if i < |s| then "/" + s[i + 1..] else "/")
  }

  lemma {:induction false} FirstSlashIs(s: string, i: nat)
    requires i <= |s| && (i < |s| ==> s[i] == '/') && forall j :: 0 <= j < i ==> s[j] != '/'
    ensures FirstSlash(s) == i
  {
    if i > 0 {
      FirstSlashIs(s[1..], i - 1);
    }
  }

  lemma StripEndRoot(w: string)
    requires w != [] && w[|w| - 1] != '/'
    ensures StripEnd(w + "/") == w
  {
    assert (w + "/")[..|w|] == w;
  }

  /** A plain name followed by a normal path is split where it was joined. */
  lemma RouteOfJoined(workload: string, b: string)
    requires workload != [] && '/' !in workload && Normal(b)
    ensures Route(workload + b) == (workload, b)
  {
    var rest := workload + b;
    assert rest[0] == workload[0] && workload[0] in workload && workload[|workload| - 1] in workload;
    assert StripStart(rest) == rest;
    assert forall j :: 0 <= j < |workload| ==> rest[j] == workload[j] && workload[j] in workload;
    if |b| == 1 {
      assert b == "/";
      StripEndRoot(workload);
      FirstSlashIs(workload, |workload|);
      assert workload[..|workload|] == workload;
    } else {
      assert rest[|rest| - 1] == b[|b| - 1] && StripEnd(rest) == rest;
      FirstSlashIs(rest, |workload|);
      assert rest[..|workload|] == workload && "/" + rest[|workload| + 1..] == b;
    }
  }

  /** The router undoes the rewrite: for every lifecycle path and every workload name without a
      slash it recovers the name and the backend path. */
  lemma RouterUndoesRewrite(workload: string, path: string)
    requires workload != [] && '/' !in workload
    ensures StartsWith(RewritePath(workload, path), PREFIX + "/")
    ensures Route(RewritePath(workload, path)[|PREFIX| + 1..]) == (workload, BackendPath(path))
  {
    var b := BackendPath(path);
    assert RewritePath(workload, path) == (PREFIX + "/") + (workload + b);
    assert RewritePath(workload, path)[|PREFIX| + 1..] == workload + b;
    RouteOfJoined(workload, b);
  }

  /** Exactly the names for which it can be undone: the plain ones, and the empty name when the
      backend path is the root. */
  lemma RouterUndoesRewriteIff(workload: string, path: string)
    ensures Route(RewritePath(workload, path)[|PREFIX| + 1..]) == (workload, BackendPath(path)) <==>
              ('/' !in workload && workload != []) || (workload == [] && BackendPath(path) == "/")
  {
    var b := BackendPath(path);
    assert RewritePath(workload, path) == (PREFIX + "/") + (workload + b);
    assert RewritePath(workload, path)[|PREFIX| + 1..] == workload + b;
    if workload == [] {
      assert workload + b == b;
      EmptyNameIff(b);
    } else if '/' in workload {
      RouterReadsPlainNames(workload + b);
    } else {
      RouteOfJoined(workload, b);
    }
  }

  /** A name the router reads never holds a slash. */
  lemma RouterReadsPlainNames(path: string)
    ensures '/' !in Route(path).0
  {
    var s := StripEnd(StripStart(path));
    assert forall j :: 0 <= j < |Route(path).0| ==> Route(path).0[j] == s[j];
  }

  lemma EmptyNameIff(b: string)
    requires Normal(b)
    ensures Route(b) == ([], b) <==> b == "/"
  {
    if |b| == 1 {
      assert b == "/" && StripStart(b) == StripStart(b[1..]) == [];
    } else {
      StripStartKeepsEnd(b);
      var s := StripStart(b);
      assert StripEnd(s) == s && FirstSlash(s) > 0;
    }
  }

  lemma {:induction false} StripStartKeepsEnd(s: string)
    requires s != [] && s[|s| - 1] != '/'
    ensures var r := StripStart(s); r != [] && r[|r| - 1] != '/' && r[0] != '/'
  {
    if s[0] == '/' {
      StripStartKeepsEnd(s[1..]);
    }
  }

  // ---------------------------------------------------------------- one route per binding

  /** A configured action: its raw path, the path URL splitting finds in it, and its method. */
  datatype Field = Field(action: string, raw: string, path: string, verb: string)

  datatype LifecycleRoute = LifecycleRoute(action: string, verb: string, path: string, rewrite: string)

  predicate Usable(f: Field) {
    f.raw != "" && f.verb != ""
  }

  function RouteOf(f: Field, workload: string): LifecycleRoute {
    LifecycleRoute(f.action, f.verb, EnvoyPath(f.path), RewritePath(workload, f.path))
  }

  function Binding(f: Field): (string, string) {
    (f.verb, EnvoyPath(f.path))
  }

  /** Some usable field before `i` has this method and path. */
  ghost predicate BoundBefore(fields: seq<Field>, i: nat, b: (string, string))
    requires i <= |fields|
  {
    exists j :: 0 <= j < i && Usable(fields[j]) && Binding(fields[j]) == b
  }

  ghost predicate FirstOfItsBinding(fields: seq<Field>, i: nat)
    requires i < |fields|
  {
    Usable(fields[i]) && !BoundBefore(fields, i, Binding(fields[i]))
  }

  /** The first field of every binding, in order. */
  ghost predicate Firsts(fields: seq<Field>, from: seq<nat>, n: nat)
    requires n <= |fields|
  {
    && (forall k :: 0 <= k < |from| ==> from[k] < n && FirstOfItsBinding(fields, from[k]))
    && (forall k, l :: 0 <= k < l < |from| ==> from[k] < from[l])
    && (forall i :: 0 <= i < n && FirstOfItsBinding(fields, i) ==> i in from)
  }

  /** The indices, below `n`, of the fields that come first with their method and path. */
  ghost function FirstIndices(fields: seq<Field>, n: nat): seq<nat>
    requires n <= |fields|
  {
    if n == 0 then []
    else FirstIndices(fields, n - 1) + if FirstOfItsBinding(fields, n - 1) then [n - 1] else []
  }

  lemma {:induction false} FirstIndicesAreFirsts(fields: seq<Field>, n: nat)
    requires n <= |fields|
    ensures Firsts(fields, FirstIndices(fields, n), n)
  {
    if n > 0 {
      FirstIndicesAreFirsts(fields, n - 1);
      FirstsStep(fields, FirstIndices(fields, n - 1), n - 1);
      assert FirstIndices(fields, n - 1) + [] == FirstIndices(fields, n - 1);
    }
  }

  lemma BoundStep(fields: seq<Field>, i: nat, b: (string, string))
    requires i < |fields|
    ensures BoundBefore(fields, i + 1, b) <==>
              BoundBefore(fields, i, b) || (Usable(fields[i]) && Binding(fields[i]) == b)
  {
  }

  lemma FirstsStep(fields: seq<Field>, from: seq<nat>, i: nat)
    requires i < |fields| && Firsts(fields, from, i)
    ensures FirstOfItsBinding(fields, i) ==> Firsts(fields, from + [i], i + 1)
    ensures !FirstOfItsBinding(fields, i) ==> Firsts(fields, from, i + 1)
  {
    assert forall k :: k in from ==> k in from + [i];
    assert i in from + [i];
  }

  /** So no two routes share a method and a path, and every usable field has one. */
  lemma OneRoutePerBinding(fields: seq<Field>, i: nat)
    requires i < |fields| && fields[i].raw != "" && fields[i].verb != ""
    ensures var from := FirstIndices(fields, |fields|);
            (forall k :: 0 <= k < |from| ==> from[k] < |fields|) &&
            exists k :: 0 <= k < |from| && Binding(fields[from[k]]) == Binding(fields[i])
                        && forall l :: 0 <= l < |from| && l != k ==> Binding(fields[from[l]]) != Binding(fields[i])
  {
    var (b, from) := (Binding(fields[i]), FirstIndices(fields, |fields|));
    FirstIndicesAreFirsts(fields, |fields|);
    FirstExists(fields, i);
    var f :| 0 <= f <= i && FirstOfItsBinding(fields, f) && Binding(fields[f]) == b;
    var k :| 0 <= k < |from| && from[k] == f;
    forall l | 0 <= l < |from| && l != k ensures Binding(fields[from[l]]) != b {
      assert FirstOfItsBinding(fields, from[l]) && (from[l] < f || f < from[l]);
    }
  }

  lemma {:induction false} FirstExists(fields: seq<Field>, i: nat)
    requires i < |fields| && Usable(fields[i])
    ensures exists f :: 0 <= f <= i && FirstOfItsBinding(fields, f) && Binding(fields[f]) == Binding(fields[i])
  {
    if BoundBefore(fields, i, Binding(fields[i])) {
      var j :| 0 <= j < i && Usable(fields[j]) && Binding(fields[j]) == Binding(fields[i]);
      FirstExists(fields, j);
    }
  }

  /** One route for each of these fields, in order. */
  predicate RoutesFor(routes: seq<LifecycleRoute>, fields: seq<Field>, from: seq<nat>, workload: string) {
    && |routes| == |from|
    && forall k :: 0 <= k < |from| ==>
         && from[k] < |fields|
         && var f := fields[from[k]];
            && f.raw != "" && f.verb != ""
            && routes[k].action == f.action && routes[k].verb == f.verb
            && routes[k].path == EnvoyPath(f.path) && routes[k].rewrite == RewritePath(workload, f.path)
  }

  lemma RoutesForStep(routes: seq<LifecycleRoute>, fields: seq<Field>, i: nat, workload: string)
    requires i < |fields| && RoutesFor(routes, fields, FirstIndices(fields, i), workload)
    ensures FirstOfItsBinding(fields, i) ==>
              RoutesFor(routes + [RouteOf(fields[i], workload)], fields, FirstIndices(fields, i + 1), workload)
    ensures !FirstOfItsBinding(fields, i) ==> RoutesFor(routes, fields, FirstIndices(fields, i + 1), workload)
  {
    hide BoundBefore;
    assert FirstIndices(fields, i) + [] == FirstIndices(fields, i);
  }

  /** `_build_lifecycle_routes`: in order, one route for the first field of every binding. */
  method BuildRoutes(fields: seq<Field>, workload: string) returns (routes: seq<LifecycleRoute>)
    ensures RoutesFor(routes, fields, FirstIndices(fields, |fields|), workload)
  {
    routes := [];
    var seen: set<(string, string)> := {};
    for i := 0 to |fields|
      invariant RoutesFor(routes, fields, FirstIndices(fields, i), workload)
      invariant forall b :: b in seen <==> BoundBefore(fields, i, b)
    {
      hide BoundBefore, RouteOf, RoutesFor, FirstIndices;
      var f := fields[i];
      RoutesForStep(routes, fields, i, workload);
      forall b ensures BoundBefore(fields, i + 1, b) <==> BoundBefore(fields, i, b) || (Usable(f) && Binding(f) == b) {
        BoundStep(fields, i, b);
      }
      if Usable(f) {
        var path := NormalizePath(f.path);
        if (f.verb, path) !in seen {
          seen := seen + {(f.verb, path)};
          var route := LifecycleRoute(f.action, f.verb, path, RewritePath(workload, f.path));
          RouteIs(f, workload);
          routes := routes + [route];
        }
      }
    }
  }

  lemma RouteIs(f: Field, workload: string)
    ensures RouteOf(f, workload) == LifecycleRoute(f.action, f.verb, EnvoyPath(f.path), RewritePath(workload, f.path))
  {
  }
}

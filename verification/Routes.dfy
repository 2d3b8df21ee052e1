/**
 * The route index and the handler dispatcher: routes are filed by path, handlers are copied into an index by
 * path and method, and a finished request is answered by the chain of its route's handlers.
 */
module Routes {
  import opened Basics

  datatype Method = GET | POST | PUT | DELETE

  /** A registered handler, named by a number. */
  type Handler = nat

  /** The builder has no way to set an authority, so every built route has the same one. */
  datatype RouteForm = RouteForm(path: string, verb: Method, handlers: seq<Handler>)

  type Formats = map<string, seq<RouteForm>>

  /** Two routes of one path count as equal when their methods are: path and scheme are compared with themselves. */
  predicate SameRoute(a: RouteForm, b: RouteForm) {
    a.verb == b.verb
  }

  predicate Contains(routes: seq<RouteForm>, route: RouteForm) {
    exists i | 0 <= i < |routes| :: SameRoute(routes[i], route)
  }

  function RoutesOf(formats: Formats, path: string): seq<RouteForm> {
    if path in formats then formats[path] else []
  }

  /** Filing a route; `None` when the builder's assertion stops the program. */
  function FileRoute(formats: Formats, route: RouteForm): Option<Formats> {
    var routes := RoutesOf(formats, route.path);
    if route.path in formats && Contains(routes, route) then None
    else Some(formats[route.path := routes + [route]])
  }

  /** A whole sequence of registrations. */
  function Build(registered: seq<RouteForm>): Option<Formats>
    decreases |registered|
  {
    if registered == [] then Some(map[])
    else
      match Build(registered[..|registered| - 1])
      case None => None
      case Some(formats) => FileRoute(formats, registered[|registered| - 1])
  }

  /** What a caller can check beforehand: no path and method are registered twice. */
  predicate NoDuplicates(registered: seq<RouteForm>) {
    forall i, j | 0 <= i < j < |registered| ::
      !(registered[i].path == registered[j].path && registered[i].verb == registered[j].verb)
  }

  /** Linear search over everything registered. */
  function Search(registered: seq<RouteForm>, path: string, verb: Method): Option<RouteForm>
    decreases |registered|
  {
    if registered == [] then None
    else if registered[0].path == path && registered[0].verb == verb then Some(registered[0])
    else Search(registered[1..], path, verb)
  }

  /** The first route with this method. */
  function FindMethod(routes: seq<RouteForm>, verb: Method): Option<RouteForm>
    decreases |routes|
  {
    if routes == [] then None else if routes[0].verb == verb then Some(routes[0]) else FindMethod(routes[1..], verb)
  }

  function Lookup(formats: Formats, path: string, verb: Method): Option<RouteForm> {
    if path in formats then FindMethod(formats[path], verb) else None
  }

  /** The registrations of one path, in order. */
  function OnPath(registered: seq<RouteForm>, path: string): seq<RouteForm>
    decreases |registered|
  {
    if registered == [] then []
    else
      var (front, last) := (OnPath(registered[..|registered| - 1], path), registered[|registered| - 1]);
      if last.path == path then front + [last] else front
  }

  lemma {:induction false} OnPathMembers(registered: seq<RouteForm>, path: string)
    ensures forall r :: r in OnPath(registered, path) <==> r in registered && r.path == path
    decreases |registered|
  {
    if registered == [] {
    } else {
      var n := |registered| - 1;
      OnPathMembers(registered[..n], path);
      assert registered == registered[..n] + [registered[n]];
    }
  }

  /** The registrations of a path keep the order in which they were made. */
  lemma {:induction false} OnPathKeepsOrder(first: seq<RouteForm>, second: seq<RouteForm>, path: string)
    ensures OnPath(first + second, path) == OnPath(first, path) + OnPath(second, path)
    decreases |second|
  {
    if second == [] {
      assert first + second == first;
    } else {
      var n := |second| - 1;
      OnPathKeepsOrder(first, second[..n], path);
      assert (first + second)[..|first + second| - 1] == first + second[..n];
      assert (first + second)[|first + second| - 1] == second[n];
    }
  }

  lemma OnPathOfOne(r: RouteForm, path: string)
    ensures OnPath([r], path) == if r.path == path then [r] else []
  {
    assert [r][..0] == [] && OnPath([], path) == [];
  }

  /** The index holds, for each path, exactly its registrations in order. */
  ghost predicate FiledIn(registered: seq<RouteForm>, formats: Formats) {
    forall path :: RoutesOf(formats, path) == OnPath(registered, path)
  }

  lemma LastIsNewExactly(front: seq<RouteForm>, formats: Formats, last: RouteForm)
    requires FiledIn(front, formats) && NoDuplicates(front)
    ensures FileRoute(formats, last).Some? <==> NoDuplicates(front + [last])
    ensures FileRoute(formats, last).Some? ==> FiledIn(front + [last], FileRoute(formats, last).value)
  {
    var all := front + [last];
    var routes := RoutesOf(formats, last.path);
    assert all[..|front|] == front;
    OnPathMembers(front, last.path);
    if Contains(routes, last) {
      var i :| 0 <= i < |routes| && SameRoute(routes[i], last);
      assert routes[i] in front;
      var k :| 0 <= k < |front| && front[k] == routes[i];
      assert all[k].path == all[|front|].path && all[k].verb == all[|front|].verb;
    } else {
      forall k | 0 <= k < |front|
        ensures !(front[k].path == last.path && front[k].verb == last.verb)
      {
        assert front[k].path == last.path ==> front[k] in routes;
      }
    }
  }

  lemma DuplicateStays(front: seq<RouteForm>, last: RouteForm)
    requires !NoDuplicates(front)
    ensures !NoDuplicates(front + [last])
  {
    var i, j :| 0 <= i < j < |front| && front[i].path == front[j].path && front[i].verb == front[j].verb;
    var all := front + [last];
    assert all[i] == front[i] && all[j] == front[j];
  }

  /** Registration succeeds exactly when nothing is registered twice, and then files each path's routes in order. */
  lemma {:induction false} BuildSucceedsExactly(registered: seq<RouteForm>)
    ensures Build(registered).Some? <==> NoDuplicates(registered)
    ensures Build(registered).Some? ==> FiledIn(registered, Build(registered).value)
    decreases |registered|
  {
    if registered == [] {
    } else {
      var n := |registered| - 1;
      var (front, last) := (registered[..n], registered[n]);
      assert registered == front + [last];
      BuildSucceedsExactly(front);
      if Build(front).Some? {
        LastIsNewExactly(front, Build(front).value, last);
      } else {
        DuplicateStays(front, last);
      }
    }
  }

  // ---------- lookup is linear search ----------

  lemma {:induction false} SearchFinds(registered: seq<RouteForm>, path: string, verb: Method)
    ensures var found := Search(registered, path, verb);
      && (found.Some? ==> found.value in registered && found.value.path == path && found.value.verb == verb)
      && (found.None? ==> forall r | r in registered :: !(r.path == path && r.verb == verb))
    decreases |registered|
  {
    if registered == [] {
    } else {
      SearchFinds(registered[1..], path, verb);
    }
  }

  lemma {:induction false} FindMethodFinds(routes: seq<RouteForm>, verb: Method)
    ensures var found := FindMethod(routes, verb);
      && (found.Some? ==> found.value in routes && found.value.verb == verb)
      && (found.None? ==> forall r | r in routes :: r.verb != verb)
    decreases |routes|
  {
    if routes == [] {
    } else {
      FindMethodFinds(routes[1..], verb);
    }
  }

  /** For any accepted registrations, the route found through the index is the one linear search finds. */
  lemma LookupIsSearch(registered: seq<RouteForm>, path: string, verb: Method)
    requires Build(registered).Some?
    ensures Lookup(Build(registered).value, path, verb) == Search(registered, path, verb)
  {
    BuildSucceedsExactly(registered);
    OnPathMembers(registered, path);
    SearchFinds(registered, path, verb);
    FindMethodFinds(RoutesOf(Build(registered).value, path), verb);
    var (found, searched) := (Lookup(Build(registered).value, path, verb), Search(registered, path, verb));
    if found.Some? && searched.Some? {
      var i :| 0 <= i < |registered| && registered[i] == found.value;
      var j :| 0 <= j < |registered| && registered[j] == searched.value;
      assert i == j;
    }
  }

  /** The methods filed under one path are pairwise distinct. */
  predicate DistinctVerbs(routes: seq<RouteForm>) {
    forall i, j | 0 <= i < j < |routes| :: routes[i].verb != routes[j].verb
  }

  lemma {:induction false} OnPathDistinct(registered: seq<RouteForm>, path: string)
    requires NoDuplicates(registered)
    ensures DistinctVerbs(OnPath(registered, path))
    decreases |registered|
  {
    if registered == [] {
    } else {
      var n := |registered| - 1;
      OnPathDistinct(registered[..n], path);
      OnPathMembers(registered[..n], path);
      var front := OnPath(registered[..n], path);
      forall i | 0 <= i < |front| && registered[n].path == path
        ensures front[i].verb != registered[n].verb
      {
        assert front[i] in registered[..n];
        var k :| 0 <= k < n && registered[k] == front[i];
      }
    }
  }

  lemma PathMethodsAreDistinct(registered: seq<RouteForm>, path: string)
    requires Build(registered).Some?
    ensures DistinctVerbs(RoutesOf(Build(registered).value, path))
  {
    BuildSucceedsExactly(registered);
    OnPathDistinct(registered, path);
  }

  // ---------- the dispatcher ----------

  type Index = map<(string, Method), seq<Handler>>

  /** One event through a chain of handlers: each receives the event and the status of the one before. */
  function Chain<E, R>(handlers: seq<Handler>, call: (Handler, E, R) -> (E, R), event: E, status: R): (E, R)
    decreases |handlers|
  {
    if handlers == [] then (event, status)
    else
      var (event', status') := call(handlers[0], event, status);
      Chain(handlers[1..], call, event', status')
  }

  lemma {:induction false} ChainSplits<E, R>(
    first: seq<Handler>, second: seq<Handler>, call: (Handler, E, R) -> (E, R), event: E, status: R)
    ensures Chain(first + second, call, event, status) ==
      var (event', status') := Chain(first, call, event, status); Chain(second, call, event', status')
    decreases |first|
  {
    if first == [] {
      assert first + second == second;
    } else {
      assert (first + second)[0] == first[0] && (first + second)[1..] == first[1..] + second;
      var (event', status') := call(first[0], event, status);
      ChainSplits(first[1..], second, call, event', status');
    }
  }

  /** No handler leaves event and status alone; one handler's answer is the chain's. */
  lemma ChainOfOne<E, R>(h: Handler, call: (Handler, E, R) -> (E, R), event: E, status: R)
    ensures Chain([], call, event, status) == (event, status)
    ensures Chain([h], call, event, status) == call(h, event, status)
  {
    assert [h][1..] == [];
  }

  /** What passes from handler to handler: each is called with the event and the status the one before returned. */
  ghost predicate Passed<E(!new), R(!new)>(
    handlers: seq<Handler>, call: (Handler, E, R) -> (E, R), event: E, status: R, trace: seq<(E, R)>)
  {
    && |trace| == |handlers| + 1 && trace[0] == (event, status)
    && forall i | 0 <= i < |handlers| :: trace[i + 1] == call(handlers[i], trace[i].0, trace[i].1)
  }

  lemma {:induction false} ChainPasses<E(!new), R(!new)>(
    handlers: seq<Handler>, call: (Handler, E, R) -> (E, R), event: E, status: R, trace: seq<(E, R)>)
    requires Passed(handlers, call, event, status, trace)
    ensures Chain(handlers, call, event, status) == trace[|handlers|]
    decreases |handlers|
  {
    if handlers == [] {
    } else {
      assert trace[1] == call(handlers[0], event, status);
      ChainPasses(handlers[1..], call, trace[1].0, trace[1].1, trace[1..]);
    }
  }

  function Entry(inner: Index, key: (string, Method)): Option<seq<Handler>> {
    if key in inner then Some(inner[key]) else None
  }

  function HandlersOf(found: Option<RouteForm>): Option<seq<Handler>> {
    if found.Some? then Some(found.value.handlers) else None
  }

  /** What the index collects for one method from any list of routes: all their handlers, in order. */
  function Collected(routes: seq<RouteForm>, verb: Method): Option<seq<Handler>>
    decreases |routes|
  {
    if routes == [] then None
    else
      var (front, last) := (Collected(routes[..|routes| - 1], verb), routes[|routes| - 1]);
      if last.verb != verb then front
      else Some((if front.Some? then front.value else []) + last.handlers)
  }

  /** With distinct methods, what is collected is what the one matching route holds. */
  lemma {:induction false} CollectedIsFound(routes: seq<RouteForm>, verb: Method)
    requires DistinctVerbs(routes)
    ensures Collected(routes, verb) == HandlersOf(FindMethod(routes, verb))
    decreases |routes|
  {
    if routes == [] {
    } else {
      var n := |routes| - 1;
      assert routes == routes[..n] + [routes[n]];
      CollectedIsFound(routes[..n], verb);
      FindMethodSnoc(routes[..n], routes[n], verb);
      FindMethodFinds(routes[..n], verb);
      assert forall r | r in routes[..n] :: r.verb != routes[n].verb;
      assert [] + routes[n].handlers == routes[n].handlers;
    }
  }

  lemma {:induction false} FindMethodSnoc(routes: seq<RouteForm>, last: RouteForm, verb: Method)
    ensures FindMethod(routes + [last], verb) ==
      var found := FindMethod(routes, verb);
      if found.Some? then found else if last.verb == verb then Some(last) else None
    decreases |routes|
  {
    if routes == [] {
      assert [last][1..] == [];
    } else {
      assert (routes + [last])[1..] == routes[1..] + [last];
      FindMethodSnoc(routes[1..], last, verb);
    }
  }

  class RouteManagerBuilder {
    var routesFormats: Formats

    constructor ()
      ensures routesFormats == map[]
    {
      routesFormats := map[];
    }

    /** Answers no when the assertion against a second route of the same path and method fails. */
    method AddNewRoute(route: RouteForm) returns (accepted: bool)
      modifies this
      ensures accepted <==> FileRoute(old(routesFormats), route).Some?
      ensures routesFormats == if accepted then FileRoute(old(routesFormats), route).value else old(routesFormats)
    {
      if route.path !in routesFormats {
        assert [] + [route] == [route];
        routesFormats := routesFormats[route.path := [route]];
        return true;
      }
      var routes := routesFormats[route.path];
      for i := 0 to |routes|
        invariant forall j | 0 <= j < i :: !SameRoute(routes[j], route)
      {
        if SameRoute(routes[i], route) {
          return false;
        }
      }
      routesFormats := routesFormats[route.path := routes + [route]];
      accepted := true;
    }
  }

  class RouteEventDispatcher {
    var inner: Index

    constructor ()
      ensures inner == map[]
    {
      inner := map[];
    }

    /** The routes of one path: a method already present is extended, a new one is inserted. */
    method SetPath(path: string, routes: seq<RouteForm>)
      requires forall verb :: (path, verb) !in inner
      modifies this
      ensures forall verb :: Entry(inner, (path, verb)) == Collected(routes, verb)
      ensures forall key: (string, Method) | key.0 != path :: Entry(inner, key) == Entry(old(inner), key)
    {
      for i := 0 to |routes|
        invariant forall verb :: Entry(inner, (path, verb)) == Collected(routes[..i], verb)
        invariant forall key: (string, Method) | key.0 != path :: Entry(inner, key) == Entry(old(inner), key)
      {
        var route := routes[i];
        assert routes[..i + 1][..i] == routes[..i];
        var key := (path, route.verb);
        assert Entry(inner, key) == Collected(routes[..i], route.verb);
        inner := inner[key := (if key in inner then inner[key] else []) + route.handlers];
      }
      assert routes[..|routes|] == routes;
    }

    /** Whatever order the hash map is walked in. */
    method SetHandles(formats: Formats, order: seq<string>)
      requires inner == map[]
      requires forall i, j | 0 <= i < j < |order| :: order[i] != order[j]
      requires (set path | path in order) == formats.Keys
      modifies this
      ensures forall path, verb :: Entry(inner, (path, verb)) == Collected(RoutesOf(formats, path), verb)
    {
      for i := 0 to |order|
        invariant forall path, verb ::
          Entry(inner, (path, verb)) == if path in order[..i] then Collected(RoutesOf(formats, path), verb) else None
      {
        assert order[i] in (set path | path in order);
        assert order[..i + 1] == order[..i] + [order[i]];
        forall verb
          ensures (order[i], verb) !in inner
        {
          assert Entry(inner, (order[i], verb)) == None;
        }
        SetPath(order[i], formats[order[i]]);
      }
      assert order[..|order|] == order;
      assert forall path :: path in order <==> path in formats by {
        assert forall path :: path in order <==> path in (set p | p in order);
      }
    }

    /** The handlers of the path and method, in their order; the last status is the response. */
    method DispatchFinished<E(!new), R(!new)>(
      path: string, verb: Method, event: E, ok: R, call: (Handler, E, R) -> (E, R))
      returns (status: R)
      ensures status == if (path, verb) in inner then Chain(inner[(path, verb)], call, event, ok).1 else ok
      ensures (path, verb) in inner ==>
        forall trace: seq<(E, R)> | Passed(inner[(path, verb)], call, event, ok, trace) ::
          status == trace[|trace| - 1].1
    {
      status := ok;
      if (path, verb) in inner {
        var current := event;
        var handlers := inner[(path, verb)];
        for i := 0 to |handlers|
          invariant Chain(handlers, call, event, ok) == Chain(handlers[i..], call, current, status)
        {
          assert handlers[i..][1..] == handlers[i + 1..];
          var (event', status') := call(handlers[i], current, status);
          current, status := event', status';
        }
        forall trace: seq<(E, R)> | Passed(handlers, call, event, ok, trace)
          ensures status == trace[|trace| - 1].1
        {
          ChainPasses(handlers, call, event, ok, trace);
        }
      }
    }
  }

  /**
   * From registration to answer: whatever order the map is walked in, a finished request is answered by the
   * left fold of the handlers of the route that linear search over the registrations finds.
   */
  method ServeFinished<E(!new), R(!new)>(registered: seq<RouteForm>, order: seq<string>, path: string, verb: Method,
                             event: E, ok: R, call: (Handler, E, R) -> (E, R))
    returns (status: R)
    requires Build(registered).Some?
    requires (forall i, j | 0 <= i < j < |order| :: order[i] != order[j])
    requires (set p | p in order) == Build(registered).value.Keys
    ensures status ==
      match Search(registered, path, verb) {
        case Some(route) => Chain(route.handlers, call, event, ok).1
        case None => ok
      }
  {
    var formats := Build(registered).value;
    PathMethodsAreDistinct(registered, path);
    CollectedIsFound(RoutesOf(formats, path), verb);
    LookupIsSearch(registered, path, verb);
    var dispatcher := new RouteEventDispatcher();
    dispatcher.SetHandles(formats, order);
    assert Entry(dispatcher.inner, (path, verb)) == HandlersOf(Search(registered, path, verb));
    status := dispatcher.DispatchFinished(path, verb, event, ok, call);
  }
}

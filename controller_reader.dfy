/**
 * The REST controller reader: turns what reflection reports about a controller class into
 * a route collection, configuring the shared action reader with the class-level
 * Prefix and NamePrefix annotations while the controller's public methods are
 * delegated to it, and resetting that configuration afterwards.
 */
module ControllerReader {
  import opened Wrappers
  import opened StringRules

  /** Namespace of the bundle's annotation classes; the backslashes are literal. */
  const AnnotationNamespace: string := "FOS\\RestBundle\\Controller\\Annotations\\"

  /** The `type` that asks for the resource name to be derived from the class name. */
  const RestClassType: string := "rest_class"

  /** The default `type`. */
  const RestType: string := "rest"

  /** A public method of the controller, as reflection lists it. */
  datatype Method = Method(name: string)

  /** What reflection tells the reader about a controller class. */
  datatype Controller = Controller(
    name: string,            // fully qualified class name
    shortName: string,       // class name without its namespace
    fileName: string,        // file that declares the class
    publicMethods: seq<Method>)

  /** A class-level annotation (Prefix, NamePrefix) and its `value`. */
  datatype Annotation = Annotation(value: Option<string>)

  /**
   * The annotation reader: for each class name, the class-level annotations it
   * carries, keyed by fully qualified annotation class.
   */
  type AnnotationReader = map<string, map<string, Annotation>>

  /** A route entry of the collection. */
  datatype Route = Route(name: string, path: string)

  /**
   * The routes the action reader derives for one method, given its configuration
   * (route prefix, name prefix, parents) and the resource name; None when the
   * action reader's `read` throws for that method.
   */
  type RouteDeriver = (Option<string>, Option<string>, seq<string>, Method, Option<string>) -> Option<seq<Route>>

  /**
   * The exceptions that leave `read`: its own, when the resource name cannot be
   * split off, and one thrown by the action reader while reading `action`.
   */
  datatype ReadError = CannotSplitResourceName | ActionReadFailed(action: Method)

  /**
   * One delegated call to the action reader, with the configuration it saw and
   * the file resources its collection held at that moment.
   */
  datatype Call = Call(
    collection: RouteCollection,
    action: Method,
    resource: Option<string>,
    routePrefix: Option<string>,
    namePrefix: Option<string>,
    parents: seq<string>,
    resources: seq<string>)

  /** Route collection: the routes and the files whose change invalidates them. */
  class RouteCollection {
    var resources: seq<string>
    var routes: seq<Route>

    constructor ()
      ensures resources == [] && routes == []
    {
      resources := [];
      routes := [];
    }

    method AddResource(file: string)
      modifies this`resources
      ensures resources == old(resources) + [file]
    {
      resources := resources + [file];
    }
  }

  /**
   * The action reader collaborator: its transient configuration, and a record of
   * the calls made to its `read`, whose route generation is the given `derive`.
   */
  class ActionReader {
    var routePrefix: Option<string>
    var namePrefix: Option<string>
    var parents: seq<string>
    const derive: RouteDeriver
    ghost var calls: seq<Call>

    constructor (derive: RouteDeriver)
      ensures routePrefix == None && namePrefix == None && parents == []
      ensures this.derive == derive && calls == []
    {
      routePrefix := None;
      namePrefix := None;
      parents := [];
      this.derive := derive;
      calls := [];
    }

    method SetRoutePrefix(prefix: Option<string>)
      modifies this`routePrefix
      ensures routePrefix == prefix
    {
      routePrefix := prefix;
    }

    method GetRoutePrefix() returns (prefix: Option<string>)
      ensures prefix == routePrefix
    {
      prefix := routePrefix;
    }

    method SetNamePrefix(prefix: Option<string>)
      modifies this`namePrefix
      ensures namePrefix == prefix
    {
      namePrefix := prefix;
    }

    method SetParents(parents: seq<string>)
      modifies this`parents
      ensures this.parents == parents
    {
      this.parents := parents;
    }

    /**
     * Records the call, then appends the routes derived for `action` to
     * `collection`, or throws, leaving the routes as they were.
     */
    method Read(collection: RouteCollection, action: Method, resource: Option<string>)
      returns (outcome: Result<(), ReadError>)
      modifies this`calls, collection`routes
      ensures outcome.Success? <==> derive(routePrefix, namePrefix, parents, action, resource).Some?
      ensures outcome.Success? ==>
                collection.routes
                == old(collection.routes) + derive(routePrefix, namePrefix, parents, action, resource).value
      ensures outcome.Failure? ==>
                outcome.error == ActionReadFailed(action) && collection.routes == old(collection.routes)
      ensures calls
              == old(calls) + [Call(collection, action, resource, routePrefix, namePrefix, parents, collection.resources)]
    {
      calls := calls + [Call(collection, action, resource, routePrefix, namePrefix, parents, collection.resources)];
      match derive(routePrefix, namePrefix, parents, action, resource)
      case Some(routes) =>
        collection.routes := collection.routes + routes;
        outcome := Success(());
      case None =>
        outcome := Failure(ActionReadFailed(action));
    }
  }

  /** The fully qualified class of the bundle annotation with the given short name. */
  function AnnotationClass(annotationName: string): string {
    AnnotationNamespace + annotationName
  }

  /** The annotation class is the fixed namespace followed by the short name, which it gives back. */
  lemma AnnotationClassSplits(annotationName: string)
    ensures |AnnotationClass(annotationName)| == |AnnotationNamespace| + |annotationName|
    ensures AnnotationClass(annotationName)[..|AnnotationNamespace|] == AnnotationNamespace
    ensures AnnotationClass(annotationName)[|AnnotationNamespace|..] == annotationName
  {
  }

  /** Distinct annotation names are looked up under distinct classes. */
  lemma AnnotationClassInjective(a: string, b: string)
    requires AnnotationClass(a) == AnnotationClass(b)
    ensures a == b
  {
    AnnotationClassSplits(a);
    AnnotationClassSplits(b);
  }

  /** A present annotation's value replaces the current setting; an absent one keeps it. */
  function AnnotatedValue(found: Option<Annotation>, current: Option<string>): (r: Option<string>)
    ensures found.Some? ==> r == found.value.value
    ensures found.None? ==> r == current
  {
    match found
    case Some(annotation) => annotation.value
    case None => current
  }

  /**
   * The resource handed to every delegated call: null unless `type` is exactly
   * "rest_class"; then the name split off the short class name, or the exception.
   */
  function ResolveResource(readType: string, shortName: string): (r: Result<Option<string>, ReadError>)
    ensures readType != RestClassType ==> r == Success(None)
    ensures readType == RestClassType ==> (r.Failure? <==> forall i: nat, j: nat :: !Captures(shortName, i, j))
    ensures readType == RestClassType && r.Success? ==>
              r.value.Some? && exists i: nat, j: nat :: IsLeftmostGreedy(shortName, i, j) && r.value.value == shortName[i..j]
  {
    if readType == RestClassType then
      match ResourceName(shortName)
      case Some(name) => Success(Some(name))
      case None => Failure(CannotSplitResourceName)
    else
      Success(None)
  }

  /** The routes one method contributes: none when the action reader throws for it. */
  function RoutesOf(derived: Option<seq<Route>>): seq<Route> {
    match derived
    case Some(routes) => routes
    case None => []
  }

  /** The routes the action reader appends for the methods, in order. */
  function DelegatedRoutes(derive: RouteDeriver, routePrefix: Option<string>, namePrefix: Option<string>,
                           parents: seq<string>, methods: seq<Method>, resource: Option<string>): seq<Route>
  {
    if methods == [] then []
    else
      DelegatedRoutes(derive, routePrefix, namePrefix, parents, methods[..|methods| - 1], resource)
      + RoutesOf(derive(routePrefix, namePrefix, parents, methods[|methods| - 1], resource))
  }

  /** The action reader's `read` does not throw for `action` under this configuration. */
  predicate Derives(derive: RouteDeriver, routePrefix: Option<string>, namePrefix: Option<string>,
                    parents: seq<string>, action: Method, resource: Option<string>)
  {
    derive(routePrefix, namePrefix, parents, action, resource).Some?
  }

  /**
   * The position of the first method for which the action reader throws, or
   * the number of methods when it throws for none.
   */
  function FirstFailure(derive: RouteDeriver, routePrefix: Option<string>, namePrefix: Option<string>,
                        parents: seq<string>, methods: seq<Method>, resource: Option<string>): (f: nat)
    ensures f <= |methods|
    ensures forall k :: 0 <= k < f ==> Derives(derive, routePrefix, namePrefix, parents, methods[k], resource)
    ensures f < |methods| ==> !Derives(derive, routePrefix, namePrefix, parents, methods[f], resource)
    decreases |methods|
  {
    if methods == [] then 0
    else if !Derives(derive, routePrefix, namePrefix, parents, methods[0], resource) then 0
    else 1 + FirstFailure(derive, routePrefix, namePrefix, parents, methods[1..], resource)
  }

  /** Delegating one more method appends that method's routes. */
  lemma DelegatedRoutesSnoc(derive: RouteDeriver, routePrefix: Option<string>, namePrefix: Option<string>,
                            parents: seq<string>, methods: seq<Method>, next: Method, resource: Option<string>)
    ensures DelegatedRoutes(derive, routePrefix, namePrefix, parents, methods + [next], resource)
            == DelegatedRoutes(derive, routePrefix, namePrefix, parents, methods, resource)
               + RoutesOf(derive(routePrefix, namePrefix, parents, next, resource))
  {
  }

  /** The first failure is at `k` when every method before `k` succeeds and the one at `k`, if any, throws. */
  lemma FirstFailureIs(derive: RouteDeriver, routePrefix: Option<string>, namePrefix: Option<string>,
                       parents: seq<string>, methods: seq<Method>, resource: Option<string>, k: nat)
    requires k <= |methods|
    requires forall i :: 0 <= i < k ==> Derives(derive, routePrefix, namePrefix, parents, methods[i], resource)
    requires k < |methods| ==> !Derives(derive, routePrefix, namePrefix, parents, methods[k], resource)
    ensures FirstFailure(derive, routePrefix, namePrefix, parents, methods, resource) == k
  {
  }

  /** Delegating two runs of methods one after the other appends their routes in that order. */
  lemma {:induction false} DelegatedRoutesAppend(derive: RouteDeriver, routePrefix: Option<string>,
                                                 namePrefix: Option<string>, parents: seq<string>,
                                                 first: seq<Method>, second: seq<Method>, resource: Option<string>)
    ensures DelegatedRoutes(derive, routePrefix, namePrefix, parents, first + second, resource)
            == DelegatedRoutes(derive, routePrefix, namePrefix, parents, first, resource)
               + DelegatedRoutes(derive, routePrefix, namePrefix, parents, second, resource)
    decreases |second|
  {
    if second == [] {
      assert first + second == first;
    } else {
      var n := |second| - 1;
      assert (first + second)[..|first + second| - 1] == first + second[..n];
      DelegatedRoutesAppend(derive, routePrefix, namePrefix, parents, first, second[..n], resource);
    }
  }

  /**
   * `calls` is `before` followed by one call per method, in order, each made
   * with the same collection, resource and configuration.
   */
  ghost predicate DelegatedInOrder(calls: seq<Call>, before: seq<Call>, methods: seq<Method>,
                                   collection: RouteCollection, resource: Option<string>,
                                   routePrefix: Option<string>, namePrefix: Option<string>,
                                   parents: seq<string>, resources: seq<string>)
  {
    && |calls| == |before| + |methods|
    && calls[..|before|] == before
    && forall k :: 0 <= k < |methods| ==>
         calls[|before| + k] == Call(collection, methods[k], resource, routePrefix, namePrefix, parents, resources)
  }

  /** Recording one more call extends an in-order delegation by that call's method. */
  lemma DelegatedInOrderStep(calls: seq<Call>, before: seq<Call>, methods: seq<Method>, next: Method,
                             collection: RouteCollection, resource: Option<string>,
                             routePrefix: Option<string>, namePrefix: Option<string>,
                             parents: seq<string>, resources: seq<string>)
    requires DelegatedInOrder(calls, before, methods, collection, resource, routePrefix, namePrefix, parents, resources)
    ensures DelegatedInOrder(calls + [Call(collection, next, resource, routePrefix, namePrefix, parents, resources)],
                             before, methods + [next], collection, resource, routePrefix, namePrefix, parents, resources)
  {
  }

  /**
   * After the first `k` methods were handed to the action reader without an
   * exception: each of them derives, the collection gained their routes, and
   * one call per method was logged, in order.
   */
  ghost predicate Delegating(derive: RouteDeriver, routePrefix: Option<string>, namePrefix: Option<string>,
                             parents: seq<string>, methods: seq<Method>, resource: Option<string>, k: nat,
                             collection: RouteCollection, resources: seq<string>,
                             routes0: seq<Route>, routes: seq<Route>, calls0: seq<Call>, calls: seq<Call>)
  {
    && k <= |methods|
    && (forall i :: 0 <= i < k ==> Derives(derive, routePrefix, namePrefix, parents, methods[i], resource))
    && routes == routes0 + DelegatedRoutes(derive, routePrefix, namePrefix, parents, methods[..k], resource)
    && DelegatedInOrder(calls, calls0, methods[..k], collection, resource, routePrefix, namePrefix, parents, resources)
  }

  /** A method whose `read` does not throw extends the delegation by its routes and its call. */
  lemma DelegatingStep(derive: RouteDeriver, routePrefix: Option<string>, namePrefix: Option<string>,
                       parents: seq<string>, methods: seq<Method>, resource: Option<string>, k: nat,
                       collection: RouteCollection, resources: seq<string>,
                       routes0: seq<Route>, routes: seq<Route>, calls0: seq<Call>, calls: seq<Call>)
    requires Delegating(derive, routePrefix, namePrefix, parents, methods, resource, k, collection, resources,
                        routes0, routes, calls0, calls)
    requires k < |methods| && Derives(derive, routePrefix, namePrefix, parents, methods[k], resource)
    ensures Delegating(derive, routePrefix, namePrefix, parents, methods, resource, k + 1, collection, resources,
                       routes0, routes + derive(routePrefix, namePrefix, parents, methods[k], resource).value,
                       calls0, calls + [Call(collection, methods[k], resource, routePrefix, namePrefix, parents, resources)])
  {
    assert methods[..k + 1] == methods[..k] + [methods[k]];
    DelegatedRoutesSnoc(derive, routePrefix, namePrefix, parents, methods[..k], methods[k], resource);
    DelegatedInOrderStep(calls, calls0, methods[..k], methods[k], collection, resource, routePrefix, namePrefix,
                         parents, resources);
  }

  /** A method whose `read` throws is the first failure, and its call is the last one logged. */
  lemma DelegatingStops(derive: RouteDeriver, routePrefix: Option<string>, namePrefix: Option<string>,
                        parents: seq<string>, methods: seq<Method>, resource: Option<string>, k: nat,
                        collection: RouteCollection, resources: seq<string>,
                        routes0: seq<Route>, routes: seq<Route>, calls0: seq<Call>, calls: seq<Call>)
    requires Delegating(derive, routePrefix, namePrefix, parents, methods, resource, k, collection, resources,
                        routes0, routes, calls0, calls)
    requires k < |methods| && !Derives(derive, routePrefix, namePrefix, parents, methods[k], resource)
    ensures FirstFailure(derive, routePrefix, namePrefix, parents, methods, resource) == k
    ensures DelegatedInOrder(calls + [Call(collection, methods[k], resource, routePrefix, namePrefix, parents, resources)],
                             calls0, methods[..k + 1], collection, resource, routePrefix, namePrefix, parents, resources)
  {
  }

  /** When every method was handed over, none failed, and the routes and calls cover all of them. */
  lemma DelegatingDone(derive: RouteDeriver, routePrefix: Option<string>, namePrefix: Option<string>,
                       parents: seq<string>, methods: seq<Method>, resource: Option<string>,
                       collection: RouteCollection, resources: seq<string>,
                       routes0: seq<Route>, routes: seq<Route>, calls0: seq<Call>, calls: seq<Call>)
    requires Delegating(derive, routePrefix, namePrefix, parents, methods, resource, |methods|, collection, resources,
                        routes0, routes, calls0, calls)
    ensures FirstFailure(derive, routePrefix, namePrefix, parents, methods, resource) == |methods|
    ensures routes == routes0 + DelegatedRoutes(derive, routePrefix, namePrefix, parents, methods, resource)
    ensures DelegatedInOrder(calls, calls0, methods, collection, resource, routePrefix, namePrefix, parents, resources)
  {
    assert methods[..|methods|] == methods;
    FirstFailureIs(derive, routePrefix, namePrefix, parents, methods, resource, |methods|);
  }

  /** The REST controller reader. */
  class RestControllerReader {
    const actionReader: ActionReader
    const annotationReader: AnnotationReader

    constructor (actionReader: ActionReader, annotationReader: AnnotationReader)
      ensures this.actionReader == actionReader && this.annotationReader == annotationReader
    {
      this.actionReader := actionReader;
      this.annotationReader := annotationReader;
    }

    method GetActionReader() returns (reader: ActionReader)
      ensures reader == actionReader
    {
      reader := actionReader;
    }

    /** The class-level annotation `annotationName` of the bundle on the controller, if any. */
    function ReadClassAnnotation(controller: Controller, annotationName: string): (r: Option<Annotation>)
      ensures r.Some? <==> controller.name in annotationReader
                           && AnnotationClass(annotationName) in annotationReader[controller.name]
      ensures r.Some? ==> r.value == annotationReader[controller.name][AnnotationClass(annotationName)]
    {
      var annotationClass := AnnotationClass(annotationName);
      if controller.name in annotationReader && annotationClass in annotationReader[controller.name] then
        Some(annotationReader[controller.name][annotationClass])
      else
        None
    }

    /**
     * Sets the route prefix and name prefix from the controller's Prefix and
     * NamePrefix annotations, when present, then strips one leading '/' from the
     * route prefix.
     */
    method ApplyClassPrefixes(controller: Controller)
      modifies actionReader`routePrefix, actionReader`namePrefix
      ensures actionReader.routePrefix
              == TrimLeadingSlash(AnnotatedValue(ReadClassAnnotation(controller, "Prefix"), old(actionReader.routePrefix)))
      ensures actionReader.namePrefix
              == AnnotatedValue(ReadClassAnnotation(controller, "NamePrefix"), old(actionReader.namePrefix))
    {
      var annotation := ReadClassAnnotation(controller, "Prefix");
      if annotation.Some? {
        actionReader.SetRoutePrefix(annotation.value.value);
      }

      annotation := ReadClassAnnotation(controller, "NamePrefix");
      if annotation.Some? {
        actionReader.SetNamePrefix(annotation.value.value);
      }

      var prefix := actionReader.GetRoutePrefix();
      if StartsWithSlash(prefix) {
        actionReader.SetRoutePrefix(Some(prefix.value[1..]));
      }
    }

    /**
     * Hands the methods, in order, to the action reader's `read` with the same
     * collection and resource, stopping at the first one for which it throws;
     * the action reader's configuration is untouched.
     */
    method ReadActionRoutes(collection: RouteCollection, methods: seq<Method>, resource: Option<string>)
      returns (outcome: Result<(), ReadError>)
      modifies actionReader`calls, collection`routes
      ensures var f := FirstFailure(actionReader.derive, actionReader.routePrefix, actionReader.namePrefix,
                                    actionReader.parents, methods, resource);
              && (outcome.Success? <==> f == |methods|)
              && (outcome.Success? ==>
                    collection.routes
                    == old(collection.routes)
                       + DelegatedRoutes(actionReader.derive, actionReader.routePrefix, actionReader.namePrefix,
                                         actionReader.parents, methods, resource))
              && (outcome.Failure? ==> outcome.error == ActionReadFailed(methods[f]))
              && DelegatedInOrder(actionReader.calls, old(actionReader.calls),
                                  methods[..if outcome.Success? then f else f + 1], collection, resource,
                                  actionReader.routePrefix, actionReader.namePrefix, actionReader.parents,
                                  collection.resources)
    {
      ghost var derive, routePrefix, namePrefix, parents :=
        actionReader.derive, actionReader.routePrefix, actionReader.namePrefix, actionReader.parents;
      ghost var routes0, calls0, resources := collection.routes, actionReader.calls, collection.resources;
      for k := 0 to |methods|
        invariant Delegating(derive, routePrefix, namePrefix, parents, methods, resource, k, collection, resources,
                             routes0, collection.routes, calls0, actionReader.calls)
      {
        ghost var routes, calls := collection.routes, actionReader.calls;
        outcome := actionReader.Read(collection, methods[k], resource);
        if outcome.Failure? {
          DelegatingStops(derive, routePrefix, namePrefix, parents, methods, resource, k, collection, resources,
                          routes0, routes, calls0, calls);
          return;
        }
        DelegatingStep(derive, routePrefix, namePrefix, parents, methods, resource, k, collection, resources,
                       routes0, routes, calls0, calls);
      }
      DelegatingDone(derive, routePrefix, namePrefix, parents, methods, resource, collection, resources,
                     routes0, collection.routes, calls0, actionReader.calls);
      assert methods[..|methods|] == methods;
      outcome := Success(());
    }

    /**
     * Reads the controller's routes into a new collection `built` that tracks
     * the controller's file. On success `built` is returned, holding the routes
     * of every public method delegated in order with the normalised prefix, and
     * the action reader's configuration is reset. On an exception `built` is
     * dropped and the configuration is left as set: nothing is delegated when
     * the resource name cannot be split off, and the methods up to the failing
     * one are when the action reader throws.
     */
    method Read(controller: Controller, readType: string)
      returns (result: Result<RouteCollection, ReadError>, ghost built: RouteCollection)
      modifies actionReader
      ensures fresh(built) && built.resources == [controller.fileName]
      ensures result.Success? ==> result.value == built
      ensures ResolveResource(readType, controller.shortName).Failure? ==>
                result == Failure(CannotSplitResourceName) && actionReader.calls == old(actionReader.calls)
      ensures ResolveResource(readType, controller.shortName).Success? ==>
                var routePrefix := TrimLeadingSlash(
                  AnnotatedValue(ReadClassAnnotation(controller, "Prefix"), old(actionReader.routePrefix)));
                var namePrefix := AnnotatedValue(ReadClassAnnotation(controller, "NamePrefix"), old(actionReader.namePrefix));
                var resource := ResolveResource(readType, controller.shortName).value;
                var methods := controller.publicMethods;
                var f := FirstFailure(actionReader.derive, routePrefix, namePrefix, old(actionReader.parents),
                                      methods, resource);
                && (result.Success? <==> f == |methods|)
                && (result.Success? ==>
                      built.routes
                      == DelegatedRoutes(actionReader.derive, routePrefix, namePrefix, old(actionReader.parents),
                                         methods, resource))
                && (result.Failure? ==> result.error == ActionReadFailed(methods[f]))
                && DelegatedInOrder(actionReader.calls, old(actionReader.calls),
                                    methods[..if result.Success? then f else f + 1], built, resource,
                                    routePrefix, namePrefix, old(actionReader.parents), [controller.fileName])
      ensures result.Success? ==>
                actionReader.routePrefix == None && actionReader.namePrefix == None && actionReader.parents == []
      ensures result.Failure? ==>
                && actionReader.routePrefix == TrimLeadingSlash(
                     AnnotatedValue(ReadClassAnnotation(controller, "Prefix"), old(actionReader.routePrefix)))
                && actionReader.namePrefix
                   == AnnotatedValue(ReadClassAnnotation(controller, "NamePrefix"), old(actionReader.namePrefix))
                && actionReader.parents == old(actionReader.parents)
    {
      var collection := new RouteCollection();
      collection.AddResource(controller.fileName);
      built := collection;

      ApplyClassPrefixes(controller);

      var resource: Option<string> := None;
      if readType == RestClassType {
        var matches := ResourceName(controller.shortName);
        if matches.None? {
          return Failure(CannotSplitResourceName), built;
        }
        resource := matches;
      }
      assert ResolveResource(readType, controller.shortName) == Success(resource);

      ghost var routePrefix, namePrefix := actionReader.routePrefix, actionReader.namePrefix;
      assert routePrefix == TrimLeadingSlash(
        AnnotatedValue(ReadClassAnnotation(controller, "Prefix"), old(actionReader.routePrefix)));
      assert namePrefix == AnnotatedValue(ReadClassAnnotation(controller, "NamePrefix"), old(actionReader.namePrefix));
      var outcome := ReadActionRoutes(collection, controller.publicMethods, resource);
      if outcome.Failure? {
        return Failure(outcome.error), built;
      }

      actionReader.SetRoutePrefix(None);
      actionReader.SetNamePrefix(None);
      actionReader.SetParents([]);
      return Success(collection), built;
    }
  }

  /**
   * Two reads on one action reader whose routes carry the route prefix as their
   * path: the first throws after the Prefix annotation was applied, so the
   * second, whose class has no Prefix annotation, still builds its route with
   * the first class's prefix.
   */
  method PrefixSurvivesFailedRead() returns (routes: seq<Route>)
    ensures routes == [Route("getUsersAction", "api")]
  {
    var actionReader := new ActionReader((rp: Option<string>, np: Option<string>, ps: seq<string>,
                                          m: Method, r: Option<string>) =>
                                           Some([Route(m.name, if rp.Some? then rp.value else "")]));
    var prefixClass := AnnotationClass("Prefix");
    var annotations := map["App\\Manager" := map[prefixClass := Annotation(Some("/api"))]];
    var reader := new RestControllerReader(actionReader, annotations);
    var manager := Controller("App\\Manager", "Manager", "Manager.php", [Method("getUsersAction")]);
    var users := Controller("App\\Users", "UsersController", "UsersController.php", [Method("getUsersAction")]);

    AnnotationClassSplits("Prefix");
    AnnotationClassSplits("NamePrefix");
    assert AnnotationClass("NamePrefix") != prefixClass;
    assert reader.ReadClassAnnotation(manager, "Prefix") == Some(Annotation(Some("/api")));
    assert reader.ReadClassAnnotation(manager, "NamePrefix") == None;
    assert "/api"[1..] == "api";
    ResourceNameOfManager();
    var first, _ := reader.Read(manager, RestClassType);
    assert first.Failure?;
    assert actionReader.routePrefix == Some("api");

    assert users.name !in annotations;
    var second, _ := reader.Read(users, RestType);
    assert second.Success?;
    routes := second.value.routes;
  }
}

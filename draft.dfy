/** The earlier draft of the pipeline (src/main.rs): two hard-wired reference resolvers,
    descriptors that keep the operation id and path verbatim, and a router generator
    that only ever handles the first descriptor of a tag. */
module Draft {
  import opened Wrappers
  import opened OpenApi
  import opened References
  import opened MultiMaps
  import Collector
  import Synthesis
  import Casing
  import Strings

  // ---------------------------------------------------------------------------
  // Resolvers

  /** The lookups the draft resolvers perform: only the categories "schemas" and
      "request_bodies" are known. */
  function SchemaLookup(components: Components): Lookup<Schema>
  {
    (name, path) => if path == "schemas" && name in components.schemas then Some(components.schemas[name]) else None
  }

  function RequestBodiesLookup(components: Components): Lookup<RequestBody>
  {
    (name, path) => if path == "request_bodies" && name in components.requestBodies then Some(components.requestBodies[name]) else None
  }

  /** `schema_reference_resolver`: the generic resolution through the schemas table. */
  function SchemaReferenceResolver(reference: ReferenceOr<Schema>, components: Components): (res: Option<Schema>)
    requires Finite(reference, SchemaLookup(components))
    ensures res == Resolve(reference, SchemaLookup(components))
    decreases Depth(reference, SchemaLookup(components))
  {
    match reference
    case Item(item) => Some(item)
    case Reference(r) =>
      match LastTwoSegments(r)
      case None => None
      case Some((path, name)) =>
        if path == "schemas" && name in components.schemas then
          NextIsShorter(reference, SchemaLookup(components), components.schemas[name]);
          SchemaReferenceResolver(components.schemas[name], components)
        else None
  }

  /** `request_bodies_reference_resolver`: the same through the request-bodies table. */
  function RequestBodiesReferenceResolver(reference: ReferenceOr<RequestBody>, components: Components): (res: Option<RequestBody>)
    requires Finite(reference, RequestBodiesLookup(components))
    ensures res == Resolve(reference, RequestBodiesLookup(components))
    decreases Depth(reference, RequestBodiesLookup(components))
  {
    match reference
    case Item(item) => Some(item)
    case Reference(r) =>
      match LastTwoSegments(r)
      case None => None
      case Some((path, name)) =>
        if path == "request_bodies" && name in components.requestBodies then
          NextIsShorter(reference, RequestBodiesLookup(components), components.requestBodies[name]);
          RequestBodiesReferenceResolver(components.requestBodies[name], components)
        else None
  }

  /** The draft and the library spell the request-body category differently: a reference
      through "request_bodies" resolves in the draft and not in the library, and the
      standard "requestBodies" resolves in neither. */
  lemma RequestBodySpellingsDiffer(components: Components, name: string, body: RequestBody)
    requires '/' !in name && name in components.requestBodies
    requires components.requestBodies[name] == Item(body)
    ensures var draftRef := Reference("#/components/request_bodies/" + name);
      var standardRef := Reference("#/components/requestBodies/" + name);
      var library := RequestBodyLookup(ComponentReferenceProvider(components));
      && Finite(draftRef, RequestBodiesLookup(components))
      && RequestBodiesReferenceResolver(draftRef, components) == Some(body)
      && Finite(draftRef, library) && Resolve(draftRef, library) == None
      && Finite(standardRef, RequestBodiesLookup(components))
      && RequestBodiesReferenceResolver(standardRef, components) == None
  {
    var lookup := RequestBodiesLookup(components);
    var library := RequestBodyLookup(ComponentReferenceProvider(components));
    var draftRef := "#/components/request_bodies/" + name;
    var standardRef := "#/components/requestBodies/" + name;
    assert LastTwoSegments(draftRef) == Some(("request_bodies", name)) by {
      RequestBodyReferences(name);
      ComponentsPathSegments("request_bodies", name);
    }
    assert LastTwoSegments(standardRef) == Some(("requestBodies", name)) by {
      RequestBodyReferences(name);
      ComponentsPathSegments("requestBodies", name);
    }
    assert Finite(Reference(draftRef), lookup) && Resolve(Reference(draftRef), lookup) == Some(body) by {
      assert Next(draftRef, lookup) == Some(Item(body));
      ResolveFollowsChain([draftRef], body, lookup);
    }
    assert Finite(Reference(draftRef), library) && Resolve(Reference(draftRef), library) == None by {
      assert Next(draftRef, library) == None;
      ResolveStep(draftRef, library);
    }
    assert Finite(Reference(standardRef), lookup) && Resolve(Reference(standardRef), lookup) == None by {
      assert Next(standardRef, lookup) == None;
      ResolveStep(standardRef, lookup);
    }
  }

  lemma RequestBodyReferences(name: string)
    ensures "#/components/request_bodies/" + name == "#/components/" + "request_bodies" + "/" + name
    ensures "#/components/requestBodies/" + name == "#/components/" + "requestBodies" + "/" + name
  {
    assert "#/components/request_bodies/" == "#/components/" + "request_bodies" + "/";
    assert "#/components/requestBodies/" == "#/components/" + "requestBodies" + "/";
  }

  /** A schema that refers to itself is never resolved: the draft resolver would not
      terminate on it. */
  lemma SelfReferentialSchema(components: Components, name: string)
    requires '/' !in name && name in components.schemas
    requires components.schemas[name] == Reference("#/components/schemas/" + name)
    ensures !Finite(Reference("#/components/schemas/" + name), SchemaLookup(components))
  {
    var r := "#/components/schemas/" + name;
    assert r == "#/components/" + "schemas" + "/" + name;
    ComponentsPathSegments("schemas", name);
    assert Next(r, SchemaLookup(components)) == Some(Reference(r));
    SelfReferenceNeverEnds(r, SchemaLookup(components));
  }

  // ---------------------------------------------------------------------------
  // Descriptors

  /** The draft descriptor: the operation id and path as written in the document. */
  datatype DraftDescription = DraftDescription(operationId: string, verb: Method, path: string)

  /** What the draft's `process_operation` inserts. */
  function DraftEntries(verb: Method, path: string, operation: Operation): (r: seq<(string, DraftDescription)>)
    ensures operation.operationId.None? ==> r == []
    ensures operation.operationId.Some? ==>
      r == [(Collector.TagOf(operation), DraftDescription(operation.operationId.value, verb, path))]
  {
    if operation.operationId.Some? then [(Collector.TagOf(operation), DraftDescription(operation.operationId.value, verb, path))] else []
  }

  /** `process_operation` of src/main.rs:80-105. */
  method ProcessOperationDraft(verb: Method, path: string, handlerDescriptions: MultiMap<DraftDescription>, operation: Operation)
    requires handlerDescriptions.Valid()
    modifies handlerDescriptions
    ensures handlerDescriptions.Valid()
    ensures handlerDescriptions.buckets == InsertAll(old(handlerDescriptions.buckets), DraftEntries(verb, path, operation))
  {
    if operation.operationId.Some? {
      var operationId := operation.operationId.value;
      var hd := DraftDescription(operationId, verb, path);
      var tag := if |operation.tags| > 0 then operation.tags[0] else "NoTag";
      handlerDescriptions.Insert(tag, hd);
    }
  }

  /** Unlike the library, the draft keeps a templated path as written: the two
      descriptors of one operation differ in their path. */
  lemma DraftKeepsTemplate(verb: Method, path: string, operation: Operation, provider: ReferenceProvider, snake: string -> string)
    requires Casing.KeepsBraceCount(snake)
    requires operation.operationId.Some? && Collector.ReferencesEnd(operation, provider)
    requires '{' in path
    ensures DraftEntries(verb, path, operation)[0].1.path != Collector.Describe(verb, path, operation, provider, snake).path
  {
  }

  function DraftItemEntries(pathName: string, item: PathItem): (r: seq<(string, DraftDescription)>)
    ensures |r| <= 3
  {
    (if item.get.Some? then DraftEntries(GET, pathName, item.get.value) else [])
    + (if item.post.Some? then DraftEntries(POST, pathName, item.post.value) else [])
    + (if item.put.Some? then DraftEntries(PUT, pathName, item.put.value) else [])
  }

  function DraftPathEntries(paths: seq<(string, ReferenceOr<PathItem>)>): (r: seq<(string, DraftDescription)>)
    ensures |r| <= 3 * |paths|
  {
    if paths == [] then []
    else
      var last := paths[|paths| - 1];
      DraftPathEntries(paths[..|paths| - 1]) + (if last.1.Item? then DraftItemEntries(last.0, last.1.item) else [])
  }

  method ProcessItemDraft(pathName: string, item: PathItem, handlerDescriptions: MultiMap<DraftDescription>)
    requires handlerDescriptions.Valid()
    modifies handlerDescriptions
    ensures handlerDescriptions.Valid()
    ensures handlerDescriptions.buckets == InsertAll(old(handlerDescriptions.buckets), DraftItemEntries(pathName, item))
  {
    ghost var start := handlerDescriptions.buckets;
    ghost var e1 := if item.get.Some? then DraftEntries(GET, pathName, item.get.value) else [];
    ghost var e2 := if item.post.Some? then DraftEntries(POST, pathName, item.post.value) else [];
    ghost var e3 := if item.put.Some? then DraftEntries(PUT, pathName, item.put.value) else [];
    if item.get.Some? {
      ProcessOperationDraft(GET, pathName, handlerDescriptions, item.get.value);
    }
    if item.post.Some? {
      ProcessOperationDraft(POST, pathName, handlerDescriptions, item.post.value);
    }
    InsertAllConcat(start, e1, e2);
    if item.put.Some? {
      ProcessOperationDraft(PUT, pathName, handlerDescriptions, item.put.value);
    }
    InsertAllConcat(start, e1 + e2, e3);
  }

  /** The collection loop of src/main.rs:155-189. */
  method CollectDraft(paths: seq<(string, ReferenceOr<PathItem>)>) returns (handlerDescriptions: MultiMap<DraftDescription>)
    ensures fresh(handlerDescriptions) && handlerDescriptions.Valid()
    ensures handlerDescriptions.buckets == InsertAll(map[], DraftPathEntries(paths))
  {
    handlerDescriptions := new MultiMap();
    var i := 0;
    while i < |paths|
      invariant 0 <= i <= |paths|
      invariant handlerDescriptions.Valid()
      invariant handlerDescriptions.buckets == InsertAll(map[], DraftPathEntries(paths[..i]))
    {
      var (pathName, pathItem) := paths[i];
      assert paths[..i + 1][..i] == paths[..i];
      ghost var before := DraftPathEntries(paths[..i]);
      ghost var added := if pathItem.Item? then DraftItemEntries(pathName, pathItem.item) else [];
      assert DraftPathEntries(paths[..i + 1]) == before + added;
      if pathItem.Item? {
        ProcessItemDraft(pathName, pathItem.item, handlerDescriptions);
      }
      InsertAllConcat(map[], before, added);
      i := i + 1;
    }
    assert paths[..i] == paths;
  }

  /** Every tag the draft collects holds at least one descriptor. */
  lemma DraftTagsNonEmpty(paths: seq<(string, ReferenceOr<PathItem>)>)
    ensures NoEmptyBuckets(InsertAll(map[], DraftPathEntries(paths)))
  {
    var empty: map<string, seq<DraftDescription>> := map[];
    InsertAllKeepsNonEmpty(empty, DraftPathEntries(paths));
  }

  // ---------------------------------------------------------------------------
  // Router

  /** The route value of src/main.rs:120-127, `<method>(<operation id>)`. */
  function RouteValue(hd: DraftDescription): string
  {
    Synthesis.MethodIdent(hd.verb) + "(" + hd.operationId + ")"
  }

  /** `generate_router` of src/main.rs:109-139: the loop stops after its first
      descriptor, so at most one handler is generated and one route recorded. The
      routes multimap is local and never reaches the output; it is returned here only
      to state what it holds. */
  method GenerateRouterDraft(name: string, handlerDescriptions: seq<DraftDescription>)
    returns (handlers: seq<string>, routes: map<string, seq<string>>)
    ensures handlerDescriptions == [] ==> handlers == [] && routes == map[]
    ensures handlerDescriptions != [] ==>
      && handlers == [handlerDescriptions[0].operationId]
      && routes == map[handlerDescriptions[0].path := [RouteValue(handlerDescriptions[0])]]
  {
    handlers := [];
    var routeMap := new MultiMap<string>();
    for i := 0 to |handlerDescriptions|
      invariant i == 0 && handlers == [] && routeMap.Valid() && routeMap.buckets == map[]
    {
      var hd := handlerDescriptions[i];
      var methodName := hd.operationId;
      handlers := handlers + [methodName];
      var route := Synthesis.MethodIdent(hd.verb) + "(" + hd.operationId + ")";
      assert Get(routeMap.buckets, hd.path) + [route] == [route];
      routeMap.Insert(hd.path, route);
      assert route == RouteValue(hd);
      assert routeMap.buckets == map[hd.path := [route]];
      break;
    }
    routes := routeMap.buckets;
  }

  /** One router file of the draft: `<tag>_router.rs` and its handlers. */
  datatype DraftRouter = DraftRouter(fileName: string, handlers: seq<string>)

  /** The first descriptor's id, if any: the draft's handler list for a tag. */
  function FirstHandler(descriptions: seq<DraftDescription>): (r: seq<string>)
    ensures |r| <= 1
    ensures descriptions != [] ==> r == [descriptions[0].operationId]
  {
    if descriptions == [] then [] else [descriptions[0].operationId]
  }

  function DraftRouters(order: seq<string>, m: map<string, seq<DraftDescription>>): (r: seq<DraftRouter>)
    ensures |r| == |order|
    ensures forall i :: 0 <= i < |order| ==> r[i] == DraftRouter(order[i] + "_router.rs", FirstHandler(Get(m, order[i])))
  {
    if order == [] then []
    else
      var last := order[|order| - 1];
      DraftRouters(order[..|order| - 1], m) + [DraftRouter(last + "_router.rs", FirstHandler(Get(m, last)))]
  }

  /** `main` of src/main.rs:148-199, from the parsed document on; `tagOrder` is the order
      in which the multimap yields its keys, each once. */
  method RunDraft(doc: OpenAPI, tagOrder: seq<string>) returns (routers: seq<DraftRouter>)
    requires IterationOrder(tagOrder, InsertAll(map[], DraftPathEntries(doc.paths)))
    ensures routers == DraftRouters(tagOrder, InsertAll(map[], DraftPathEntries(doc.paths)))
    ensures forall i :: 0 <= i < |tagOrder| ==> |routers[i].handlers| == 1
  {
    var handlerDescriptions := CollectDraft(doc.paths);
    var buckets := handlerDescriptions.buckets;
    assert NoEmptyBuckets(buckets) by { assert handlerDescriptions.Valid(); }
    routers := [];
    var i := 0;
    while i < |tagOrder|
      invariant 0 <= i <= |tagOrder|
      invariant routers == DraftRouters(tagOrder[..i], buckets)
    {
      var name := tagOrder[i];
      var handlers, _ := GenerateRouterDraft(name, Get(buckets, name));
      routers := routers + [DraftRouter(name + "_router.rs", handlers)];
      assert tagOrder[..i + 1][..i] == tagOrder[..i];
      i := i + 1;
    }
    assert tagOrder[..i] == tagOrder;
  }
}

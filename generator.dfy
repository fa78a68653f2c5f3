/** The driver `generate` (src/lib.rs:338-422): collect the descriptors of a parsed
    document, then emit, tag by tag, a handlers module and a router, and finally the
    module index and the server that nests every router under "/". Files are not
    written: the generated modules are the result. */
module Generator {
  import opened Wrappers
  import opened OpenApi
  import opened Casing
  import opened References
  import opened PathTemplate
  import opened MultiMaps
  import opened Collector
  import opened Synthesis

  /** What one tag produces: the handlers module `<tag>_handlers` and the tag's router. */
  datatype TagOutput = TagOutput(tag: string, handlersModule: string, handlers: seq<HandlerStub>, router: RouterModule)

  /** Everything `generate` emits: per-tag modules, the `pub mod` index (absent when no
      tag has handlers) and the server module. */
  datatype Generated = Generated(tags: seq<TagOutput>, modIndex: Option<seq<string>>, server: ServerModule)

  /** The provider of src/lib.rs:341-346. */
  function ProviderFor(doc: OpenAPI): (provider: ReferenceProvider)
    ensures provider.EmptyReferenceProvider? <==> doc.components.None?
    ensures doc.components.Some? ==> provider.components == doc.components.value
  {
    match doc.components
    case Some(components) => ComponentReferenceProvider(components)
    case None => EmptyReferenceProvider
  }

  /** The tag → descriptors multimap after the collection loop. */
  function Collected(doc: OpenAPI, snake: string -> string): map<string, seq<HandlerDescription>>
    requires KeepsBraceCount(snake) && PathsReferencesEnd(doc.paths, ProviderFor(doc))
  {
    InsertAll(map[], PathEntries(doc.paths, ProviderFor(doc), snake))
  }

  /** The outputs for one tag and its descriptor list. */
  function TagOutputFor(tag: string, descriptions: seq<HandlerDescription>, snake: string -> string): (t: TagOutput)
    ensures t.handlersModule == tag + "_handlers" == t.router.handlersModule
    ensures t.router.moduleName == "pets"
    ensures |t.router.routes| == |t.handlers|
    ensures forall i :: 0 <= i < |t.handlers| ==> t.router.routes[i].handler == t.handlers[i].name
  {
    AllRoutesMatchStubs(descriptions, snake);
    TagOutput(tag, tag + "_handlers", AllStubs(descriptions, snake), GenerateRouter(tag, AllRoutes(descriptions, snake)))
  }

  /** The module index of src/lib.rs:410-419. */
  function ModIndex(tags: seq<string>): (r: Option<seq<string>>)
    ensures r.None? <==> tags == []
    ensures r.Some? ==> |r.value| == |tags| && forall i :: 0 <= i < |tags| ==> r.value[i] == tags[i] + "_handlers"
  {
    if tags == [] then None else Some(seq(|tags|, i requires 0 <= i < |tags| => tags[i] + "_handlers"))
  }

  /** The per-tag outputs for the tags in `order`, in that order. */
  function TagOutputs(order: seq<string>, m: map<string, seq<HandlerDescription>>, snake: string -> string): (r: seq<TagOutput>)
    ensures |r| == |order|
    ensures forall i :: 0 <= i < |order| ==> r[i] == TagOutputFor(order[i], Get(m, order[i]), snake)
  {
    if order == [] then []
    else TagOutputs(order[..|order| - 1], m, snake) + [TagOutputFor(order[|order| - 1], Get(m, order[|order| - 1]), snake)]
  }

  lemma TagOutputsSnoc(order: seq<string>, i: nat, m: map<string, seq<HandlerDescription>>, snake: string -> string)
    requires i < |order|
    ensures TagOutputs(order[..i + 1], m, snake) == TagOutputs(order[..i], m, snake) + [TagOutputFor(order[i], Get(m, order[i]), snake)]
    ensures order[..i + 1] == order[..i] + [order[i]]
  {
    assert order[..i + 1][..i] == order[..i];
  }

  /** The body of the per-tag loop of src/lib.rs:398-408. */
  method GenerateTag(name: string, desc: seq<HandlerDescription>, snake: string -> string) returns (output: TagOutput)
    ensures output == TagOutputFor(name, desc, snake)
  {
    var names, handlers := GenerateHandlers(desc, snake);
    var router := GenerateRouter(name, names);
    output := TagOutput(name, name + "_handlers", handlers, router);
  }

  /** The per-tag loop of src/lib.rs:398-408: the tag outputs, the router idents and
      one "/" prefix per tag. */
  method GenerateTags(tagOrder: seq<string>, buckets: map<string, seq<HandlerDescription>>, snake: string -> string)
    returns (tags: seq<TagOutput>, routersIdent: seq<string>, routesPrefixes: seq<string>)
    ensures tags == TagOutputs(tagOrder, buckets, snake)
    ensures routersIdent == tagOrder
    ensures |routesPrefixes| == |tagOrder| && forall j :: 0 <= j < |routesPrefixes| ==> routesPrefixes[j] == "/"
  {
    tags := [];
    routersIdent := [];
    routesPrefixes := [];
    var i := 0;
    while i < |tagOrder|
      invariant 0 <= i <= |tagOrder|
      invariant tags == TagOutputs(tagOrder[..i], buckets, snake)
      invariant routersIdent == tagOrder[..i]
      invariant |routesPrefixes| == i && forall j :: 0 <= j < i ==> routesPrefixes[j] == "/"
    {
      var name := tagOrder[i];
      TagOutputsSnoc(tagOrder, i, buckets, snake);
      var output := GenerateTag(name, Get(buckets, name), snake);
      tags := tags + [output];
      routersIdent := routersIdent + [name];
      routesPrefixes := routesPrefixes + ["/"];
      i := i + 1;
    }
    assert tagOrder[..i] == tagOrder;
  }

  /** `generate`, from the parsed document on; `tagOrder` is the order in which the
      multimap yields its keys. */
  method Generate(doc: OpenAPI, snake: string -> string, tagOrder: seq<string>) returns (out: Generated)
    requires KeepsBraceCount(snake) && PathsReferencesEnd(doc.paths, ProviderFor(doc))
    requires IterationOrder(tagOrder, Collected(doc, snake))
    ensures |out.tags| == |tagOrder|
    ensures forall i :: 0 <= i < |tagOrder| ==>
      out.tags[i] == TagOutputFor(tagOrder[i], Get(Collected(doc, snake), tagOrder[i]), snake)
    ensures out.modIndex == ModIndex(tagOrder)
    ensures |out.server.nests| == |out.server.includes| == |tagOrder|
    ensures forall i :: 0 <= i < |tagOrder| ==>
      out.server.nests[i] == ("/", tagOrder[i]) && out.server.includes[i] == "/" + tagOrder[i] + ".rs"
  {
    var referenceProvider := match doc.components
      case Some(components) => ComponentReferenceProvider(components)
      case None => EmptyReferenceProvider;
    var handlerDescriptions := CollectOperations(doc.paths, referenceProvider, snake);
    var tags, routersIdent, routesPrefixes := GenerateTags(tagOrder, handlerDescriptions.buckets, snake);
    var modIndex := ModIndex(tagOrder);
    out := Generated(tags, modIndex, GenerateServer(routesPrefixes, routersIdent));
  }

  /** Each tag's bucket, and so its handlers and routes, holds exactly the descriptors of
      the operations filed under that tag, in document order. */
  lemma TagHandlersFollowDocument(doc: OpenAPI, snake: string -> string, tag: string)
    requires KeepsBraceCount(snake) && PathsReferencesEnd(doc.paths, ProviderFor(doc))
    ensures var entries := PathEntries(doc.paths, ProviderFor(doc), snake);
      var t := TagOutputFor(tag, Get(Collected(doc, snake), tag), snake);
      && t.handlers == AllStubs(Bucket(entries, tag), snake)
      && t.router == GenerateRouter(tag, AllRoutes(Bucket(entries, tag), snake))
  {
    GroupedByTag(doc.paths, ProviderFor(doc), snake, tag);
  }

  // ---------------------------------------------------------------------------
  // One operation, end to end

  /** A document with a single GET operation `id`, tagged `tag`, on `pre{param}`, whose
      one inline parameter is the path parameter `param`, and no components. */
  function SingleGetDocument(pre: string, param: string, id: string, tag: string): OpenAPI
  {
    var operation := Operation([tag], Some(id), [Item(Path(ParameterData(param, true)))], None);
    OpenAPI([(pre + "{" + param + "}", Item(PathItem(Some(operation), None, None)))], None)
  }

  /** Such a document yields one descriptor under `tag`, whose path has the placeholder
      rewritten to `:snake(param)`, and one route to the handler named after the
      converted id. */
  lemma SingleGetEndToEnd(pre: string, param: string, id: string, tag: string, snake: string -> string)
    requires KeepsBraceCount(snake) && Idempotent(snake)
    requires '{' !in pre && '{' !in param && '}' !in param
    ensures var doc := SingleGetDocument(pre, param, id, tag);
      && PathsReferencesEnd(doc.paths, ProviderFor(doc))
      && Collected(doc, snake) == map[tag := [SingleGetDescription(pre, param, id, snake)]]
      && TagOutputFor(tag, Get(Collected(doc, snake), tag), snake).router.routes
           == [Route(pre + ":" + snake(param), "get", snake(id))]
      && TagOutputFor(tag, Get(Collected(doc, snake), tag), snake).handlers
           == [HandlerStub(snake(id), [snake(param)], NoBody)]
  {
    var doc := SingleGetDocument(pre, param, id, tag);
    var operation := doc.paths[0].1.item.get.value;
    var provider := ProviderFor(doc);
    var parameters := operation.parameters;
    assert ReferencesEnd(operation, provider) by {
      assert EndsWithin(parameters[0], ParameterLookup(provider), 0);
    }
    assert PathsReferencesEnd(doc.paths, provider);
    var path := pre + "{" + param + "}";
    assert ModifyPathTemplate(path, snake) == pre + ":" + snake(param) by {
      SingleGetPath(pre, param, snake);
    }
    assert PathParams(parameters, provider, snake) == [snake(param)] by {
      assert parameters[..0] == [];
    }
    var hd := SingleGetDescription(pre, param, id, snake);
    assert Describe(GET, path, operation, provider, snake) == hd;
    assert PathEntries(doc.paths, provider, snake) == [(tag, hd)] by {
      assert doc.paths[..0] == [];
    }
    SingleInsert(tag, hd);
    assert ContentRoutes(hd, snake) == [((hd.path, "get"), snake(id))];
    assert AllRoutes([hd], snake) == ContentRoutes(hd, snake) by {
      assert [hd][..0] == [];
    }
    assert AllStubs([hd], snake) == ContentStubs(hd, snake) by {
      assert [hd][..0] == [];
    }
  }

  lemma SingleInsert<V>(key: string, value: V)
    ensures InsertAll(map[], [(key, value)]) == map[key := [value]]
  {
    var empty: map<string, seq<V>> := map[];
    assert [(key, value)][..0] == [];
    assert InsertAll(empty, []) == empty;
    assert Get(empty, key) + [value] == [value];
  }

  function SingleGetDescription(pre: string, param: string, id: string, snake: string -> string): HandlerDescription
  {
    HandlerDescription(snake(id), GET, pre + ":" + snake(param), [snake(param)], None)
  }

  lemma SingleGetPath(pre: string, param: string, snake: string -> string)
    requires KeepsBraceCount(snake)
    requires '{' !in pre && '{' !in param && '}' !in param
    ensures ModifyPathTemplate(pre + "{" + param + "}", snake) == pre + ":" + snake(param)
  {
    var path := pre + "{" + param + "}";
    assert path + "" == path;
    Placeholder(pre, param, "", snake);
    assert pre + ":" + snake(param) + "" == pre + ":" + snake(param);
  }
}

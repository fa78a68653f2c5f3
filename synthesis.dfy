/** Handler and router synthesis (src/lib.rs:144-263, 281-299 and 323-336). The token
    streams `quote!` builds are modelled by the records they describe: one record per
    generated handler function, per router module and per server module. */
module Synthesis {
  import opened Wrappers
  import opened Strings
  import opened OpenApi
  import opened Casing
  import opened Collector

  /** How a generated handler takes its request body. */
  datatype BodyKind = NoBody | RequiredBody | OptionalBody

  /** One generated `pub async fn`: its name, its path-parameter extractors in order,
      and its body extractor. */
  datatype HandlerStub = HandlerStub(name: string, pathParams: seq<string>, body: BodyKind)

  /** A routing entry: (path, lower-case HTTP method ident) and the handler name. */
  type RouteKey = (string, string)
  type RoutingEntry = (RouteKey, string)

  /** One `.route(path, method(handlers::name))` call of a router. */
  datatype Route = Route(path: string, verb: string, handler: string)

  datatype RouterModule = RouterModule(moduleName: string, handlersModule: string, routes: seq<Route>)

  datatype ServerModule = ServerModule(includes: seq<string>, nests: seq<(string, string)>)

  // ---------------------------------------------------------------------------
  // Names

  /** `adjust_content_type`: every `/` becomes `_`, nothing else changes. */
  function AdjustContentType(contentType: string): (r: string)
    ensures |r| == |contentType| && '/' !in r
    ensures forall i :: 0 <= i < |r| && contentType[i] != '/' ==> r[i] == contentType[i]
    ensures '/' !in contentType ==> r == contentType
  {
    ReplaceChar(contentType, '/', '_')
  }

  /** A media type `type/subtype` (such as `application/json`) becomes `type_subtype`. */
  lemma MediaTypeName(kind: string, subtype: string)
    requires '/' !in kind && '/' !in subtype
    ensures AdjustContentType(kind + "/" + subtype) == kind + "_" + subtype
  {
    AdjustConcat(kind, "/");
    AdjustConcat(kind + "/", subtype);
    var slash := AdjustContentType("/");
    assert slash == "_" by {
      assert |slash| == 1 && slash[0] == '_';
    }
  }

  /** Adjusting works piecewise. */
  lemma AdjustConcat(a: string, b: string)
    ensures AdjustContentType(a + b) == AdjustContentType(a) + AdjustContentType(b)
  {
    var l, r := AdjustContentType(a + b), AdjustContentType(a) + AdjustContentType(b);
    assert |l| == |r|;
    forall i | 0 <= i < |l| ensures l[i] == r[i] {
      if i < |a| {
        assert (a + b)[i] == a[i];
      } else {
        assert (a + b)[i] == b[i - |a|];
      }
    }
  }

  /** The method ident of src/lib.rs:151: the method's name in lower case. */
  function MethodIdent(verb: Method): (r: string)
    ensures r == match verb case GET => "get" case POST => "post" case PUT => "put"
  {
    var r := AsciiLower(MethodName(verb));
    assert r == match verb case GET => "get" case POST => "post" case PUT => "put" by {
      assert |r| == |MethodName(verb)|;
      forall i | 0 <= i < |r| ensures r[i] == (match verb case GET => "get" case POST => "post" case PUT => "put")[i] {
      }
    }
    r
  }

  function BodyKindOf(required: bool): BodyKind
  {
    if required then RequiredBody else OptionalBody
  }

  /** A handler name for one content type, `<method name>_<adjusted content type>`. */
  function ContentHandlerName(methodName: string, contentType: string): string
  {
    methodName + "_" + AdjustContentType(contentType)
  }

  // ---------------------------------------------------------------------------
  // Handlers of one descriptor

  /** The routing entries `generate_content_handlers` returns for `hd`: one per content
      type of its request body, or a single one when it has none. */
  function ContentRoutes(hd: HandlerDescription, snake: string -> string): seq<RoutingEntry>
  {
    var key := (hd.path, MethodIdent(hd.verb));
    var methodName := snake(hd.operationId);
    match hd.requestBody
    case None => [(key, methodName)]
    case Some(body) =>
      seq(|body.content|, i requires 0 <= i < |body.content| => (key, ContentHandlerName(methodName, body.content[i])))
  }

  /** The handler functions `generate_content_handlers` emits for `hd`, in the same
      order. */
  function ContentStubs(hd: HandlerDescription, snake: string -> string): seq<HandlerStub>
  {
    var methodName := snake(hd.operationId);
    match hd.requestBody
    case None => [HandlerStub(methodName, hd.pathParams, NoBody)]
    case Some(body) =>
      seq(|body.content|, i requires 0 <= i < |body.content| =>
        HandlerStub(ContentHandlerName(methodName, body.content[i]), hd.pathParams, BodyKindOf(body.required)))
  }

  /** `generate_content_handlers`. */
  method GenerateContentHandlers(hd: HandlerDescription, snake: string -> string)
    returns (handlerNames: seq<RoutingEntry>, handler: seq<HandlerStub>)
    ensures handlerNames == ContentRoutes(hd, snake)
    ensures handler == ContentStubs(hd, snake)
  {
    var httpMethodIdent := AsciiLower(MethodName(hd.verb));
    var methodName := snake(hd.operationId);
    handlerNames := [];
    handler := [];
    if hd.requestBody.Some? {
      var requestBody := hd.requestBody.value;
      var bodyParam := if requestBody.required then RequiredBody else OptionalBody;
      var i := 0;
      while i < |requestBody.content|
        invariant 0 <= i <= |requestBody.content|
        invariant |handlerNames| == |handler| == i
        invariant forall j :: 0 <= j < i ==> handlerNames[j] == ContentRoutes(hd, snake)[j]
        invariant forall j :: 0 <= j < i ==> handler[j] == ContentStubs(hd, snake)[j]
      {
        var ct := ReplaceChar(requestBody.content[i], '/', '_');
        var methodNameIdent := methodName + "_" + ct;
        handlerNames := handlerNames + [((hd.path, httpMethodIdent), methodNameIdent)];
        handler := handler + [HandlerStub(methodNameIdent, hd.pathParams, bodyParam)];
        i := i + 1;
      }
    } else {
      handlerNames := [((hd.path, httpMethodIdent), methodName)];
      handler := [HandlerStub(methodName, hd.pathParams, NoBody)];
    }
  }

  /** Each routing entry names the handler generated beside it, under the descriptor's
      path and method. */
  lemma ContentRoutesMatchStubs(hd: HandlerDescription, snake: string -> string)
    ensures |ContentRoutes(hd, snake)| == |ContentStubs(hd, snake)|
    ensures forall i :: 0 <= i < |ContentRoutes(hd, snake)| ==>
      && ContentRoutes(hd, snake)[i].1 == ContentStubs(hd, snake)[i].name
      && ContentRoutes(hd, snake)[i].0 == (hd.path, MethodIdent(hd.verb))
      && ContentStubs(hd, snake)[i].pathParams == hd.pathParams
  {
  }

  /** A request body with no content types yields no handler and no route. */
  lemma EmptyContentYieldsNothing(hd: HandlerDescription, snake: string -> string)
    requires hd.requestBody.Some? && hd.requestBody.value.content == []
    ensures ContentRoutes(hd, snake) == [] && ContentStubs(hd, snake) == []
  {
  }

  /** A descriptor with a request body gets one handler and one route per content type,
      named `<converted id>_<adjusted content type>`; each handler takes the body, and the
      extractor is the mandatory one exactly when the body is required. */
  lemma BodyHandlersPerContentType(hd: HandlerDescription, snake: string -> string)
    requires hd.requestBody.Some?
    ensures var content := hd.requestBody.value.content;
      |ContentStubs(hd, snake)| == |content| == |ContentRoutes(hd, snake)|
    ensures var content := hd.requestBody.value.content;
      forall i :: 0 <= i < |content| ==>
        && ContentStubs(hd, snake)[i].name == snake(hd.operationId) + "_" + AdjustContentType(content[i])
        && ContentRoutes(hd, snake)[i] == ((hd.path, MethodIdent(hd.verb)), snake(hd.operationId) + "_" + AdjustContentType(content[i]))
        && ContentStubs(hd, snake)[i].body != NoBody
        && (ContentStubs(hd, snake)[i].body == RequiredBody <==> hd.requestBody.value.required)
  {
  }

  /** Two content types give two handlers with different names registered under the same
      (path, method) pair. */
  lemma TwoContentTypesShareRoute(hd: HandlerDescription, snake: string -> string)
    requires hd.requestBody.Some? && |hd.requestBody.value.content| == 2
    requires AdjustContentType(hd.requestBody.value.content[0]) != AdjustContentType(hd.requestBody.value.content[1])
    ensures var routes := ContentRoutes(hd, snake);
      |routes| == 2 && routes[0].0 == routes[1].0 && routes[0].1 != routes[1].1
  {
    var m := snake(hd.operationId);
    var c := hd.requestBody.value.content;
    NamesDistinct(m, c[0], c[1]);
  }

  /** Distinct adjusted content types give distinct handler names. */
  lemma NamesDistinct(methodName: string, c1: string, c2: string)
    requires AdjustContentType(c1) != AdjustContentType(c2)
    ensures ContentHandlerName(methodName, c1) != ContentHandlerName(methodName, c2)
  {
    var k := |methodName + "_"|;
    assert ContentHandlerName(methodName, c1)[k..] == AdjustContentType(c1);
    assert ContentHandlerName(methodName, c2)[k..] == AdjustContentType(c2);
  }

  /** The handler name applies the case conversion to an id already converted when the
      descriptor was built; for an idempotent conversion this is one conversion of the
      operation's own id. */
  lemma HandlerNameIsConvertedOnce(verb: Method, path: string, operation: Operation, provider: References.ReferenceProvider, snake: string -> string)
    requires KeepsBraceCount(snake) && Idempotent(snake)
    requires operation.operationId.Some? && ReferencesEnd(operation, provider)
    requires operation.requestBody.None?
    ensures ContentRoutes(Describe(verb, path, operation, provider, snake), snake)
      == [((PathTemplate.ModifyPathTemplate(path, snake), MethodIdent(verb)), snake(operation.operationId.value))]
  {
    assert snake(snake(operation.operationId.value)) == snake(operation.operationId.value);
  }

  // ---------------------------------------------------------------------------
  // Handlers of one tag

  /** Everything `generate_handlers` returns for a descriptor list, in order. */
  function AllRoutes(descriptions: seq<HandlerDescription>, snake: string -> string): seq<RoutingEntry>
  {
    if descriptions == [] then []
    else AllRoutes(descriptions[..|descriptions| - 1], snake) + ContentRoutes(descriptions[|descriptions| - 1], snake)
  }

  function AllStubs(descriptions: seq<HandlerDescription>, snake: string -> string): seq<HandlerStub>
  {
    if descriptions == [] then []
    else AllStubs(descriptions[..|descriptions| - 1], snake) + ContentStubs(descriptions[|descriptions| - 1], snake)
  }

  /** `generate_handlers`. */
  method GenerateHandlers(handlerDescriptions: seq<HandlerDescription>, snake: string -> string)
    returns (handlerNames: seq<RoutingEntry>, handlers: seq<HandlerStub>)
    ensures handlerNames == AllRoutes(handlerDescriptions, snake)
    ensures handlers == AllStubs(handlerDescriptions, snake)
  {
    handlerNames := [];
    handlers := [];
    var i := 0;
    while i < |handlerDescriptions|
      invariant 0 <= i <= |handlerDescriptions|
      invariant handlerNames == AllRoutes(handlerDescriptions[..i], snake)
      invariant handlers == AllStubs(handlerDescriptions[..i], snake)
    {
      var contentHandlerNames, tokens := GenerateContentHandlers(handlerDescriptions[i], snake);
      handlers := handlers + tokens;
      handlerNames := handlerNames + contentHandlerNames;
      assert handlerDescriptions[..i + 1][..i] == handlerDescriptions[..i];
      i := i + 1;
    }
    assert handlerDescriptions[..i] == handlerDescriptions;
  }

  /** Across a whole tag, the i-th routing entry names the i-th generated handler. */
  lemma {:induction false} AllRoutesMatchStubs(descriptions: seq<HandlerDescription>, snake: string -> string)
    ensures |AllRoutes(descriptions, snake)| == |AllStubs(descriptions, snake)|
    ensures forall i :: 0 <= i < |AllRoutes(descriptions, snake)| ==>
      AllRoutes(descriptions, snake)[i].1 == AllStubs(descriptions, snake)[i].name
  {
    if descriptions != [] {
      var front := descriptions[..|descriptions| - 1];
      AllRoutesMatchStubs(front, snake);
      ContentRoutesMatchStubs(descriptions[|descriptions| - 1], snake);
    }
  }

  /** The routes and handlers of a tag are those of each descriptor, concatenated in
      order. */
  lemma {:induction false} AllRoutesConcat(a: seq<HandlerDescription>, b: seq<HandlerDescription>, snake: string -> string)
    ensures AllRoutes(a + b, snake) == AllRoutes(a, snake) + AllRoutes(b, snake)
    decreases |b|
  {
    if b == [] {
      assert a + b == a;
    } else {
      var front, last := b[..|b| - 1], b[|b| - 1];
      DropLast(a, b);
      calc {
        AllRoutes(a + b, snake);
        AllRoutes(a + front, snake) + ContentRoutes(last, snake);
        { AllRoutesConcat(a, front, snake); }
        (AllRoutes(a, snake) + AllRoutes(front, snake)) + ContentRoutes(last, snake);
        { Reassociate(AllRoutes(a, snake), AllRoutes(front, snake), ContentRoutes(last, snake)); }
        AllRoutes(a, snake) + (AllRoutes(front, snake) + ContentRoutes(last, snake));
      }
    }
  }

  lemma {:induction false} AllStubsConcat(a: seq<HandlerDescription>, b: seq<HandlerDescription>, snake: string -> string)
    ensures AllStubs(a + b, snake) == AllStubs(a, snake) + AllStubs(b, snake)
    decreases |b|
  {
    if b == [] {
      assert a + b == a;
    } else {
      var front, last := b[..|b| - 1], b[|b| - 1];
      DropLast(a, b);
      calc {
        AllStubs(a + b, snake);
        AllStubs(a + front, snake) + ContentStubs(last, snake);
        { AllStubsConcat(a, front, snake); }
        (AllStubs(a, snake) + AllStubs(front, snake)) + ContentStubs(last, snake);
        { Reassociate(AllStubs(a, snake), AllStubs(front, snake), ContentStubs(last, snake)); }
        AllStubs(a, snake) + (AllStubs(front, snake) + ContentStubs(last, snake));
      }
    }
  }

  /** Descriptors without a request body give exactly one handler each. */
  lemma {:induction false} OneHandlerPerBodilessDescriptor(descriptions: seq<HandlerDescription>, snake: string -> string)
    requires forall i :: 0 <= i < |descriptions| ==> descriptions[i].requestBody.None?
    ensures |AllRoutes(descriptions, snake)| == |descriptions|
  {
    if descriptions != [] {
      OneHandlerPerBodilessDescriptor(descriptions[..|descriptions| - 1], snake);
    }
  }

  // ---------------------------------------------------------------------------
  // Router and server

  /** `Iterator::unzip`. */
  function Unzip<A, B>(s: seq<(A, B)>): (r: (seq<A>, seq<B>))
    ensures |r.0| == |s| && |r.1| == |s|
    ensures forall i :: 0 <= i < |s| ==> r.0[i] == s[i].0 && r.1[i] == s[i].1
  {
    if s == [] then ([], [])
    else
      var front := Unzip(s[..|s| - 1]);
      (front.0 + [s[|s| - 1].0], front.1 + [s[|s| - 1].1])
  }

  /** The lockstep repetition `#(... #a ... #b ...)*` of `quote!`, which stops at the
      shorter list. */
  function Zip<A, B>(a: seq<A>, b: seq<B>): (r: seq<(A, B)>)
    ensures |r| == if |a| <= |b| then |a| else |b|
    ensures forall i :: 0 <= i < |r| ==> r[i] == (a[i], b[i])
  {
    if a == [] || b == [] then [] else [(a[0], b[0])] + Zip(a[1..], b[1..])
  }

  /** Unzipping and zipping back gives the original list. */
  lemma ZipUnzip<A, B>(s: seq<(A, B)>)
    ensures Zip(Unzip(s).0, Unzip(s).1) == s
  {
  }

  /** Zipping lists of equal length and unzipping gives the lists back. */
  lemma UnzipZip<A, B>(a: seq<A>, b: seq<B>)
    requires |a| == |b|
    ensures Unzip(Zip(a, b)) == (a, b)
  {
    var u := Unzip(Zip(a, b));
    assert u.0 == a;
    assert u.1 == b;
  }

  /** `generate_router`: the module named "pets" (literally, whatever the tag), which
      imports `<name>_handlers` and registers one route per entry. */
  function GenerateRouter(name: string, names: seq<RoutingEntry>): (router: RouterModule)
    ensures router.moduleName == "pets"
    ensures router.handlersModule == name + "_handlers"
    ensures |router.routes| == |names|
    ensures forall i :: 0 <= i < |names| ==>
      router.routes[i] == Route(names[i].0.0, names[i].0.1, names[i].1)
  {
    var (pathsMethods, handlerNames) := Unzip(names);
    var (paths, methods) := Unzip(pathsMethods);
    var routes := Zip(Zip(paths, methods), handlerNames);
    RouterModule("pets", name + "_handlers", seq(|routes|, i requires 0 <= i < |routes| => Route(routes[i].0.0, routes[i].0.1, routes[i].1)))
  }

  /** `generate_server`: one include per router, and one `.nest` per (prefix, router)
      pair, as many as the shorter list. */
  function GenerateServer(prefixes: seq<string>, routers: seq<string>): (server: ServerModule)
    ensures |server.includes| == |routers|
    ensures forall i :: 0 <= i < |routers| ==> server.includes[i] == "/" + routers[i] + ".rs"
    ensures |server.nests| == if |prefixes| <= |routers| then |prefixes| else |routers|
    ensures forall i :: 0 <= i < |server.nests| ==> server.nests[i] == (prefixes[i], routers[i])
  {
    ServerModule(seq(|routers|, i requires 0 <= i < |routers| => "/" + routers[i] + ".rs"), Zip(prefixes, routers))
  }

  /** The generated router module is named "pets" for every tag, while the server nests
      the module named after the tag: for any other tag the two names differ. */
  lemma RouterNameIgnoresTag(name: string, names: seq<RoutingEntry>)
    requires name != "pets"
    ensures GenerateRouter(name, names).moduleName != name
  {
  }
}

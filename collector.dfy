/** Operation collection (src/lib.rs:79-142 and the loop of src/lib.rs:350-387): each
    GET/POST/PUT operation with an id becomes a `HandlerDescription`, filed in the
    multimap under its first tag, or under "NoTag". */
module Collector {
  import opened Wrappers
  import opened Strings
  import opened OpenApi
  import opened Casing
  import opened References
  import opened PathTemplate
  import opened MultiMaps

  datatype HandlerDescription = HandlerDescription(
    operationId: string,
    verb: Method,
    path: string,
    pathParams: seq<string>,
    requestBody: Option<RequestBody>)

  /** The references an operation with an id resolves all end (the Rust has no cycle
      detection); operations without an id resolve nothing. */
  ghost predicate ReferencesEnd(operation: Operation, provider: ReferenceProvider)
  {
    operation.operationId.Some? ==>
      && (forall i :: 0 <= i < |operation.parameters| ==> Finite(operation.parameters[i], ParameterLookup(provider)))
      && (operation.requestBody.Some? ==> Finite(operation.requestBody.value, RequestBodyLookup(provider)))
  }

  ghost predicate AllParametersEnd(parameters: seq<ReferenceOr<Parameter>>, provider: ReferenceProvider)
  {
    forall i :: 0 <= i < |parameters| ==> Finite(parameters[i], ParameterLookup(provider))
  }

  // ---------------------------------------------------------------------------
  // Path parameters

  /** What one declared parameter contributes: its converted name when it resolves to a
      path parameter, nothing otherwise. */
  function PathParamName(parameter: ReferenceOr<Parameter>, provider: ReferenceProvider, snake: string -> string): (r: seq<string>)
    requires Finite(parameter, ParameterLookup(provider))
    ensures |r| <= 1
  {
    var resolved := Resolve(parameter, ParameterLookup(provider));
    if resolved.Some? && resolved.value.Path? then [snake(resolved.value.pathData.name)] else []
  }

  /** The path-parameter list of a descriptor, in declaration order. */
  function PathParams(parameters: seq<ReferenceOr<Parameter>>, provider: ReferenceProvider, snake: string -> string): (r: seq<string>)
    requires AllParametersEnd(parameters, provider)
    ensures |r| <= |parameters|
  {
    if parameters == [] then []
    else
      PathParams(parameters[..|parameters| - 1], provider, snake)
        + PathParamName(parameters[|parameters| - 1], provider, snake)
  }

  /** The loop of src/lib.rs:102-114. */
  method CollectPathParams(parameters: seq<ReferenceOr<Parameter>>, provider: ReferenceProvider, snake: string -> string)
    returns (pathParams: seq<string>)
    requires AllParametersEnd(parameters, provider)
    ensures pathParams == PathParams(parameters, provider, snake)
  {
    pathParams := [];
    var i := 0;
    while i < |parameters|
      invariant 0 <= i <= |parameters|
      invariant pathParams == PathParams(parameters[..i], provider, snake)
    {
      var parameter := parameters[i];
      PathParamsSnoc(parameters, i, provider, snake);
      var resolved := Resolve(parameter, ParameterLookup(provider));
      if resolved.Some? && resolved.value.Path? {
        pathParams := pathParams + [snake(resolved.value.pathData.name)];
      }
      i := i + 1;
    }
    assert parameters[..i] == parameters;
  }

  lemma PathParamsSnoc(parameters: seq<ReferenceOr<Parameter>>, i: nat, provider: ReferenceProvider, snake: string -> string)
    requires AllParametersEnd(parameters, provider) && i < |parameters|
    ensures AllParametersEnd(parameters[..i], provider) && AllParametersEnd(parameters[..i + 1], provider)
    ensures PathParams(parameters[..i + 1], provider, snake)
      == PathParams(parameters[..i], provider, snake) + PathParamName(parameters[i], provider, snake)
  {
    assert parameters[..i + 1][..i] == parameters[..i];
    assert parameters[..i + 1][i] == parameters[i];
  }

  /** The parameter lists of two parts are the lists of each, concatenated. */
  lemma {:induction false} PathParamsConcat(a: seq<ReferenceOr<Parameter>>, b: seq<ReferenceOr<Parameter>>, provider: ReferenceProvider, snake: string -> string)
    requires AllParametersEnd(a, provider) && AllParametersEnd(b, provider)
    ensures AllParametersEnd(a + b, provider)
    ensures PathParams(a + b, provider, snake) == PathParams(a, provider, snake) + PathParams(b, provider, snake)
    decreases |b|
  {
    if b == [] {
      assert a + b == a;
    } else {
      assert (a + b)[..|a + b| - 1] == a + b[..|b| - 1];
      PathParamsConcat(a, b[..|b| - 1], provider, snake);
    }
  }

  /** A parameter that is unresolved, or resolves to a query, header or cookie parameter,
      is dropped wherever it stands: the list is the one without it. */
  lemma DroppedParameter(pre: seq<ReferenceOr<Parameter>>, x: ReferenceOr<Parameter>, post: seq<ReferenceOr<Parameter>>,
                         provider: ReferenceProvider, snake: string -> string)
    requires AllParametersEnd(pre, provider) && Finite(x, ParameterLookup(provider)) && AllParametersEnd(post, provider)
    requires var r := Resolve(x, ParameterLookup(provider)); r.None? || !r.value.Path?
    ensures AllParametersEnd(pre + [x] + post, provider) && AllParametersEnd(pre + post, provider)
    ensures PathParams(pre + [x] + post, provider, snake) == PathParams(pre + post, provider, snake)
  {
    var own := PathParams(pre, provider, snake);
    assert AllParametersEnd(pre + [x], provider) && PathParams(pre + [x], provider, snake) == own by {
      DroppedSingleton(x, provider, snake);
      PathParamsConcat(pre, [x], provider, snake);
    }
    assert PathParams(pre + [x] + post, provider, snake) == own + PathParams(post, provider, snake) by {
      PathParamsConcat(pre + [x], post, provider, snake);
    }
    PathParamsConcat(pre, post, provider, snake);
  }

  lemma DroppedSingleton(x: ReferenceOr<Parameter>, provider: ReferenceProvider, snake: string -> string)
    requires Finite(x, ParameterLookup(provider))
    requires var r := Resolve(x, ParameterLookup(provider)); r.None? || !r.value.Path?
    ensures AllParametersEnd([x], provider)
    ensures PathParams([x], provider, snake) == []
  {
    assert [x][..0] == [];
  }

  /** A parameter that resolves to a path parameter, inline or through `$ref`s, is kept
      where it stands, under the converted name of the parameter it resolves to. */
  lemma KeptParameter(pre: seq<ReferenceOr<Parameter>>, x: ReferenceOr<Parameter>, post: seq<ReferenceOr<Parameter>>,
                      provider: ReferenceProvider, snake: string -> string)
    requires AllParametersEnd(pre, provider) && Finite(x, ParameterLookup(provider)) && AllParametersEnd(post, provider)
    requires var r := Resolve(x, ParameterLookup(provider)); r.Some? && r.value.Path?
    ensures AllParametersEnd(pre + [x] + post, provider)
    ensures PathParams(pre + [x] + post, provider, snake)
         == PathParams(pre, provider, snake) + [snake(Resolve(x, ParameterLookup(provider)).value.pathData.name)] + PathParams(post, provider, snake)
  {
    var name := snake(Resolve(x, ParameterLookup(provider)).value.pathData.name);
    assert AllParametersEnd([x], provider) && PathParams([x], provider, snake) == [name] by {
      assert [x][..0] == [];
    }
    assert AllParametersEnd(pre + [x], provider) by {
      PathParamsConcat(pre, [x], provider, snake);
    }
    PathParamsConcat(pre, [x], provider, snake);
    PathParamsConcat(pre + [x], post, provider, snake);
  }

  /** Inline path parameters are all kept, in order, each under its converted name. */
  lemma {:induction false} InlinePathParams(parameters: seq<ReferenceOr<Parameter>>, provider: ReferenceProvider, snake: string -> string)
    requires forall i :: 0 <= i < |parameters| ==> parameters[i].Item? && parameters[i].item.Path?
    ensures AllParametersEnd(parameters, provider)
    ensures var r := PathParams(parameters, provider, snake);
      |r| == |parameters| && forall i :: 0 <= i < |r| ==> r[i] == snake(parameters[i].item.pathData.name)
  {
    forall i | 0 <= i < |parameters| ensures Finite(parameters[i], ParameterLookup(provider)) {
      assert EndsWithin(parameters[i], ParameterLookup(provider), 0);
    }
    if parameters != [] {
      InlinePathParams(parameters[..|parameters| - 1], provider, snake);
    }
  }

  /** Without components only inline parameters can be kept: a list of references
      contributes nothing. */
  lemma {:induction false} NoComponentsNoReferencedParams(parameters: seq<ReferenceOr<Parameter>>, snake: string -> string)
    requires forall i :: 0 <= i < |parameters| ==> parameters[i].Reference?
    ensures AllParametersEnd(parameters, EmptyReferenceProvider)
    ensures PathParams(parameters, EmptyReferenceProvider, snake) == []
  {
    forall i | 0 <= i < |parameters| ensures Finite(parameters[i], ParameterLookup(EmptyReferenceProvider)) {
      EmptyProviderResolvesNothing(parameters[i].reference);
    }
    if parameters != [] {
      NoComponentsNoReferencedParams(parameters[..|parameters| - 1], snake);
      EmptyProviderResolvesNothing(parameters[|parameters| - 1].reference);
    }
  }

  // ---------------------------------------------------------------------------
  // Descriptors

  /** The request body of src/lib.rs:116-121: absent, or resolved through the provider. */
  function RequestBodyOf(operation: Operation, provider: ReferenceProvider): (r: Option<RequestBody>)
    requires operation.requestBody.Some? ==> Finite(operation.requestBody.value, RequestBodyLookup(provider))
    ensures operation.requestBody.None? ==> r.None?
    ensures operation.requestBody.Some? && operation.requestBody.value.Item? ==> r == Some(operation.requestBody.value.item)
  {
    if operation.requestBody.Some? then Resolve(operation.requestBody.value, RequestBodyLookup(provider)) else None
  }

  /** Without components, a referenced request body resolves to nothing. */
  lemma NoComponentsNoReferencedBody(operation: Operation)
    requires operation.requestBody.Some? && operation.requestBody.value.Reference?
    ensures Finite(operation.requestBody.value, RequestBodyLookup(EmptyReferenceProvider))
    ensures RequestBodyOf(operation, EmptyReferenceProvider).None?
  {
    EmptyProviderResolvesNothing(operation.requestBody.value.reference);
  }

  /** The tag an operation is filed under: its first tag, or "NoTag". */
  function TagOf(operation: Operation): (tag: string)
    ensures |operation.tags| > 0 ==> tag == operation.tags[0]
    ensures operation.tags == [] ==> tag == "NoTag"
  {
    if |operation.tags| > 0 then operation.tags[0] else "NoTag"
  }

  /** The descriptor built at src/lib.rs:123-129. */
  function Describe(verb: Method, path: string, operation: Operation, provider: ReferenceProvider, snake: string -> string): (hd: HandlerDescription)
    requires KeepsBraceCount(snake)
    requires operation.operationId.Some? && ReferencesEnd(operation, provider)
    ensures hd.verb == verb
    ensures hd.operationId == snake(operation.operationId.value)
    ensures hd.path == ModifyPathTemplate(path, snake) && '{' !in hd.path
    ensures hd.pathParams == PathParams(operation.parameters, provider, snake)
    ensures |hd.pathParams| <= |operation.parameters|
    ensures hd.requestBody == RequestBodyOf(operation, provider)
  {
    HandlerDescription(
      snake(operation.operationId.value),
      verb,
      ModifyPathTemplate(path, snake),
      PathParams(operation.parameters, provider, snake),
      RequestBodyOf(operation, provider))
  }

  /** What processing one operation inserts: nothing without an id, otherwise one
      descriptor under its tag. */
  function OperationEntries(verb: Method, path: string, operation: Operation, provider: ReferenceProvider, snake: string -> string): (r: seq<(string, HandlerDescription)>)
    requires KeepsBraceCount(snake) && ReferencesEnd(operation, provider)
    ensures operation.operationId.None? ==> r == []
    ensures operation.operationId.Some? ==> r == [(TagOf(operation), Describe(verb, path, operation, provider, snake))]
  {
    if operation.operationId.Some? then [(TagOf(operation), Describe(verb, path, operation, provider, snake))] else []
  }

  /** `process_operation`. */
  method ProcessOperation(verb: Method, path: string, handlerDescriptions: MultiMap<HandlerDescription>,
                          operation: Operation, provider: ReferenceProvider, snake: string -> string)
    requires KeepsBraceCount(snake) && ReferencesEnd(operation, provider)
    requires handlerDescriptions.Valid()
    modifies handlerDescriptions
    ensures handlerDescriptions.Valid()
    ensures operation.operationId.None? ==> handlerDescriptions.buckets == old(handlerDescriptions.buckets)
    ensures operation.operationId.Some? ==>
      var tag := TagOf(operation);
      handlerDescriptions.buckets == old(handlerDescriptions.buckets)[tag :=
        Get(old(handlerDescriptions.buckets), tag) + [Describe(verb, path, operation, provider, snake)]]
    ensures handlerDescriptions.buckets == InsertAll(old(handlerDescriptions.buckets), OperationEntries(verb, path, operation, provider, snake))
  {
    if operation.operationId.Some? {
      var operationId := operation.operationId.value;
      var pathParams := CollectPathParams(operation.parameters, provider, snake);
      var requestBody := if operation.requestBody.Some? then Resolve(operation.requestBody.value, RequestBodyLookup(provider)) else None;
      var hd := HandlerDescription(snake(operationId), verb, ModifyPathTemplate(path, snake), pathParams, requestBody);
      var tag := if |operation.tags| > 0 then operation.tags[0] else "NoTag";
      handlerDescriptions.Insert(tag, hd);
    }
  }

  // ---------------------------------------------------------------------------
  // The collection loop of `generate`

  ghost predicate ItemReferencesEnd(item: PathItem, provider: ReferenceProvider)
  {
    && (item.get.Some? ==> ReferencesEnd(item.get.value, provider))
    && (item.post.Some? ==> ReferencesEnd(item.post.value, provider))
    && (item.put.Some? ==> ReferencesEnd(item.put.value, provider))
  }

  ghost predicate PathsReferencesEnd(paths: seq<(string, ReferenceOr<PathItem>)>, provider: ReferenceProvider)
  {
    forall i :: 0 <= i < |paths| && paths[i].1.Item? ==> ItemReferencesEnd(paths[i].1.item, provider)
  }

  /** A path item's GET, then POST, then PUT operation. */
  function ItemEntries(pathName: string, item: PathItem, provider: ReferenceProvider, snake: string -> string): (r: seq<(string, HandlerDescription)>)
    requires KeepsBraceCount(snake) && ItemReferencesEnd(item, provider)
    ensures |r| <= 3
  {
    (if item.get.Some? then OperationEntries(GET, pathName, item.get.value, provider, snake) else [])
    + (if item.post.Some? then OperationEntries(POST, pathName, item.post.value, provider, snake) else [])
    + (if item.put.Some? then OperationEntries(PUT, pathName, item.put.value, provider, snake) else [])
  }

  /** Everything inserted while walking `paths` in document order; a path entry that is
      a reference is skipped. */
  function PathEntries(paths: seq<(string, ReferenceOr<PathItem>)>, provider: ReferenceProvider, snake: string -> string): (r: seq<(string, HandlerDescription)>)
    requires KeepsBraceCount(snake) && PathsReferencesEnd(paths, provider)
    ensures |r| <= 3 * |paths|
  {
    if paths == [] then []
    else
      var last := paths[|paths| - 1];
      PathEntries(paths[..|paths| - 1], provider, snake)
        + (if last.1.Item? then ItemEntries(last.0, last.1.item, provider, snake) else [])
  }

  /** The body of the loop of src/lib.rs:350-387 for one path item. */
  method ProcessItem(pathName: string, item: PathItem, handlerDescriptions: MultiMap<HandlerDescription>,
                     provider: ReferenceProvider, snake: string -> string)
    requires KeepsBraceCount(snake) && ItemReferencesEnd(item, provider)
    requires handlerDescriptions.Valid()
    modifies handlerDescriptions
    ensures handlerDescriptions.Valid()
    ensures handlerDescriptions.buckets == InsertAll(old(handlerDescriptions.buckets), ItemEntries(pathName, item, provider, snake))
  {
    ghost var start := handlerDescriptions.buckets;
    ghost var e1 := if item.get.Some? then OperationEntries(GET, pathName, item.get.value, provider, snake) else [];
    ghost var e2 := if item.post.Some? then OperationEntries(POST, pathName, item.post.value, provider, snake) else [];
    ghost var e3 := if item.put.Some? then OperationEntries(PUT, pathName, item.put.value, provider, snake) else [];
    if item.get.Some? {
      ProcessOperation(GET, pathName, handlerDescriptions, item.get.value, provider, snake);
    }
    assert handlerDescriptions.buckets == InsertAll(start, e1);
    if item.post.Some? {
      ProcessOperation(POST, pathName, handlerDescriptions, item.post.value, provider, snake);
    }
    InsertAllConcat(start, e1, e2);
    if item.put.Some? {
      ProcessOperation(PUT, pathName, handlerDescriptions, item.put.value, provider, snake);
    }
    InsertAllConcat(start, e1 + e2, e3);
  }

  /** The loop of src/lib.rs:350-387. */
  method CollectOperations(paths: seq<(string, ReferenceOr<PathItem>)>, provider: ReferenceProvider, snake: string -> string)
    returns (handlerDescriptions: MultiMap<HandlerDescription>)
    requires KeepsBraceCount(snake) && PathsReferencesEnd(paths, provider)
    ensures fresh(handlerDescriptions) && handlerDescriptions.Valid()
    ensures handlerDescriptions.buckets == InsertAll(map[], PathEntries(paths, provider, snake))
  {
    handlerDescriptions := new MultiMap();
    var i := 0;
    while i < |paths|
      invariant 0 <= i <= |paths|
      invariant handlerDescriptions.Valid()
      invariant handlerDescriptions.buckets == InsertAll(map[], PathEntries(paths[..i], provider, snake))
    {
      var (pathName, pathItem) := paths[i];
      PathEntriesSnoc(paths, i, provider, snake);
      ghost var before := PathEntries(paths[..i], provider, snake);
      ghost var added := if pathItem.Item? then ItemEntries(pathName, pathItem.item, provider, snake) else [];
      if pathItem.Item? {
        ProcessItem(pathName, pathItem.item, handlerDescriptions, provider, snake);
      }
      InsertAllConcat(map[], before, added);
      i := i + 1;
    }
    assert paths[..i] == paths;
  }

  lemma PathEntriesSnoc(paths: seq<(string, ReferenceOr<PathItem>)>, i: nat, provider: ReferenceProvider, snake: string -> string)
    requires KeepsBraceCount(snake) && PathsReferencesEnd(paths, provider) && i < |paths|
    ensures PathsReferencesEnd(paths[..i], provider) && PathsReferencesEnd(paths[..i + 1], provider)
    ensures PathEntries(paths[..i + 1], provider, snake) == PathEntries(paths[..i], provider, snake)
      + (if paths[i].1.Item? then ItemEntries(paths[i].0, paths[i].1.item, provider, snake) else [])
  {
    assert paths[..i + 1][..i] == paths[..i];
    assert paths[..i + 1][i] == paths[i];
  }

  // ---------------------------------------------------------------------------
  // Properties of the collected multimap

  /** The multimap built from `paths` holds, under each tag, exactly the descriptors of
      the operations filed under that tag, in the order they were visited. */
  lemma GroupedByTag(paths: seq<(string, ReferenceOr<PathItem>)>, provider: ReferenceProvider, snake: string -> string, tag: string)
    requires KeepsBraceCount(snake) && PathsReferencesEnd(paths, provider)
    ensures var entries := PathEntries(paths, provider, snake);
      && Get(InsertAll(map[], entries), tag) == Bucket(entries, tag)
      && (tag in InsertAll(map[], entries) <==> Bucket(entries, tag) != [])
  {
    InsertAllBuckets(map[], PathEntries(paths, provider, snake), tag);
  }

  /** Every collected descriptor has a normalised path (no `{` left) and is filed under
      the tag of an operation. */
  lemma {:induction false} CollectedPathsNormalised(paths: seq<(string, ReferenceOr<PathItem>)>, provider: ReferenceProvider, snake: string -> string)
    requires KeepsBraceCount(snake) && PathsReferencesEnd(paths, provider)
    ensures forall e :: e in PathEntries(paths, provider, snake) ==> '{' !in e.1.path
  {
    if paths != [] {
      CollectedPathsNormalised(paths[..|paths| - 1], provider, snake);
    }
  }

  /** An operation whose id is missing contributes nothing; one with an id and no tags is
      filed under "NoTag" only. */
  lemma OperationFiling(verb: Method, path: string, operation: Operation, provider: ReferenceProvider, snake: string -> string, tag: string)
    requires KeepsBraceCount(snake) && ReferencesEnd(operation, provider)
    ensures var entries := OperationEntries(verb, path, operation, provider, snake);
      && (operation.operationId.None? ==> Bucket(entries, tag) == [])
      && (operation.operationId.Some? && operation.tags == [] ==>
            Bucket(entries, tag) == if tag == "NoTag" then [Describe(verb, path, operation, provider, snake)] else [])
  {
    var entries := OperationEntries(verb, path, operation, provider, snake);
    if operation.operationId.Some? {
      assert entries[..0] == [];
    }
  }

  /** The three methods of a path item are visited GET, then POST, then PUT. */
  lemma MethodOrder(pathName: string, item: PathItem, provider: ReferenceProvider, snake: string -> string)
    requires KeepsBraceCount(snake) && ItemReferencesEnd(item, provider)
    requires item.get.Some? && item.post.Some? && item.put.Some?
    requires item.get.value.operationId.Some? && item.post.value.operationId.Some? && item.put.value.operationId.Some?
    ensures var r := ItemEntries(pathName, item, provider, snake);
      |r| == 3 && r[0].1.verb == GET && r[1].1.verb == POST && r[2].1.verb == PUT
  {
  }
}

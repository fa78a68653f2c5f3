/** Reference resolution (src/lib.rs:18-77): following `$ref` chains through a provider.
    The Rust code has no cycle detection, so resolution here requires that the chain
    starting at the value is finite (`Finite`); a cyclic chain, of any length, is shown never to be. */
module References {
  import opened Wrappers
  import opened Strings
  import opened OpenApi

  /** A lookup capability: (name, category) to the stored value, if any. */
  type Lookup<T> = (string, string) -> Option<ReferenceOr<T>>

  /** The `ReferenceProvider` trait object: a components table, or nothing at all. */
  datatype ReferenceProvider =
    | ComponentReferenceProvider(components: Components)
    | EmptyReferenceProvider

  /** `ReferenceProvider::resolve_parameter`. */
  function ResolveParameter(provider: ReferenceProvider, name: string, path: string): (r: Option<ReferenceOr<Parameter>>)
    ensures r.Some? <==> provider.ComponentReferenceProvider? && path == "parameters" && name in provider.components.parameters
    ensures r.Some? ==> r.value == provider.components.parameters[name]
  {
    match provider
    case EmptyReferenceProvider => None
    case ComponentReferenceProvider(components) =>
      if path == "parameters" && name in components.parameters then Some(components.parameters[name]) else None
  }

  /** `ReferenceProvider::resolve_request_body`: note the category spelling "request_body". */
  function ResolveRequestBody(provider: ReferenceProvider, name: string, path: string): (r: Option<ReferenceOr<RequestBody>>)
    ensures r.Some? <==> provider.ComponentReferenceProvider? && path == "request_body" && name in provider.components.requestBodies
    ensures r.Some? ==> r.value == provider.components.requestBodies[name]
  {
    match provider
    case EmptyReferenceProvider => None
    case ComponentReferenceProvider(components) =>
      if path == "request_body" && name in components.requestBodies then Some(components.requestBodies[name]) else None
  }

  /** The closures built at src/lib.rs:100 and src/lib.rs:117. */
  function ParameterLookup(provider: ReferenceProvider): Lookup<Parameter>
  {
    (name, path) => ResolveParameter(provider, name, path)
  }

  function RequestBodyLookup(provider: ReferenceProvider): Lookup<RequestBody>
  {
    (name, path) => ResolveRequestBody(provider, name, path)
  }

  /** The last two `/`-separated segments of a reference, as (category, name): the two
      `pop`s of src/lib.rs:62-64.  No JSON-Pointer unescaping is done. */
  function LastTwoSegments(reference: string): Option<(string, string)>
  {
    var parts := Split(reference, '/');
    if |parts| >= 2 then Some((parts[|parts| - 2], parts[|parts| - 1])) else None
  }

  /** One link of a chain: the provider is asked with the name first, the category second. */
  function Next<T>(reference: string, lookup: Lookup<T>): Option<ReferenceOr<T>>
  {
    match LastTwoSegments(reference)
    case None => None
    case Some((path, name)) => lookup(name, path)
  }

  /** The chain starting at `r` stops (at an item or a failed link) within `n` links. */
  ghost predicate EndsWithin<T>(r: ReferenceOr<T>, lookup: Lookup<T>, n: nat)
    decreases n
  {
    match r
    case Item(_) => true
    case Reference(reference) =>
      match Next(reference, lookup)
      case None => true
      case Some(next) => n > 0 && EndsWithin(next, lookup, n - 1)
  }

  ghost predicate Finite<T>(r: ReferenceOr<T>, lookup: Lookup<T>)
  {
    exists n: nat :: EndsWithin(r, lookup, n)
  }

  /** The length of the chain: the least bound within which it ends. */
  ghost function Depth<T>(r: ReferenceOr<T>, lookup: Lookup<T>): (n: nat)
    requires Finite(r, lookup)
    ensures EndsWithin(r, lookup, n)
    ensures forall m: nat :: m < n ==> !EndsWithin(r, lookup, m)
  {
    var k: nat :| EndsWithin(r, lookup, k);
    LeastFrom(r, lookup, 0, k)
  }

  ghost function LeastFrom<T>(r: ReferenceOr<T>, lookup: Lookup<T>, i: nat, k: nat): (n: nat)
    requires i <= k && EndsWithin(r, lookup, k)
    requires forall m: nat :: m < i ==> !EndsWithin(r, lookup, m)
    ensures EndsWithin(r, lookup, n)
    ensures forall m: nat :: m < n ==> !EndsWithin(r, lookup, m)
    decreases k - i
  {
    if EndsWithin(r, lookup, i) then i else LeastFrom(r, lookup, i + 1, k)
  }

  /** Following a link shortens the remaining chain. */
  lemma NextIsShorter<T>(r: ReferenceOr<T>, lookup: Lookup<T>, next: ReferenceOr<T>)
    requires Finite(r, lookup)
    requires r.Reference? && Next(r.reference, lookup) == Some(next)
    ensures Finite(next, lookup) && Depth(next, lookup) < Depth(r, lookup)
  {
    var d := Depth(r, lookup);
    assert EndsWithin(next, lookup, d - 1);
  }

  /** `reference_resolver`: an item is returned as is; a reference is followed through
      the provider until an item is reached or a link fails. */
  function Resolve<T>(r: ReferenceOr<T>, lookup: Lookup<T>): (res: Option<T>)
    requires Finite(r, lookup)
    ensures r.Item? ==> res == Some(r.item)
    decreases Depth(r, lookup)
  {
    match r
    case Item(item) => Some(item)
    case Reference(reference) =>
      match Next(reference, lookup)
      case None => None
      case Some(next) =>
        NextIsShorter(r, lookup, next);
        Resolve(next, lookup)
  }

  // ---------------------------------------------------------------------------
  // Which segments the provider sees

  /** A reference has the two segments exactly when it holds a `/`. */
  lemma LastTwoSegmentsExist(reference: string)
    ensures LastTwoSegments(reference).Some? <==> '/' in reference
  {
  }

  /** Only the last two segments count: they hold no `/`, and the reference ends in them,
      after the start or after a `/`. */
  lemma LastTwoSegmentsShape(reference: string, path: string, name: string)
    requires LastTwoSegments(reference) == Some((path, name))
    ensures '/' !in path && '/' !in name
    ensures |path| + |name| + 1 <= |reference|
    ensures var pre := reference[..|reference| - |path| - |name| - 1];
      reference == pre + path + "/" + name && (pre == [] || pre[|pre| - 1] == '/')
  {
    var parts := Split(reference, '/');
    var n := |parts|;
    var front := parts[..n - 1];
    assert reference == Join(front, '/') + "/" + name by {
      assert parts == front + [name];
      JoinSnoc(front, name, '/');
    }
    var pre := JoinLast(front, '/');
    assert front[|front| - 1] == path;
    Reassociate(pre, path, "/" + name);
    assert reference == pre + path + "/" + name;
    assert reference[..|pre|] == pre;
  }

  /** A join ends in its last part, after the start or after a separator. */
  lemma JoinLast(parts: seq<string>, sep: char) returns (pre: string)
    requires |parts| > 0
    ensures Join(parts, sep) == pre + parts[|parts| - 1]
    ensures pre == [] || pre[|pre| - 1] == sep
  {
    var n := |parts|;
    if n == 1 {
      pre := [];
    } else {
      assert parts == parts[..n - 1] + [parts[n - 1]];
      JoinSnoc(parts[..n - 1], parts[n - 1], sep);
      pre := Join(parts[..n - 1], sep) + [sep];
    }
  }

  /** Conversely, whatever precedes the last two segments is ignored. */
  lemma {:induction false} LastTwoSegmentsOf(pre: string, path: string, name: string)
    requires pre == [] || pre[|pre| - 1] == '/'
    requires '/' !in path && '/' !in name
    ensures LastTwoSegments(pre + path + "/" + name) == Some((path, name))
  {
    SplitAround(path, '/', name);
    SplitWithout(path, '/');
    SplitWithout(name, '/');
    if pre == [] {
      assert pre + path + "/" + name == path + ['/'] + name;
    } else {
      var p := pre[..|pre| - 1];
      assert pre + path + "/" + name == p + ['/'] + (path + ['/'] + name);
      SplitAround(p, '/', path + ['/'] + name);
    }
  }

  /** The provider receives exactly the last segment as name and the one before it as
      category. */
  lemma ProviderSeesLastTwoSegments<T>(pre: string, path: string, name: string, lookup: Lookup<T>)
    requires pre == [] || pre[|pre| - 1] == '/'
    requires '/' !in path && '/' !in name
    ensures Next(pre + path + "/" + name, lookup) == lookup(name, path)
  {
    LastTwoSegmentsOf(pre, path, name);
  }

  // ---------------------------------------------------------------------------
  // What resolution yields

  /** A reference without `/`, or one whose link the provider does not know, is
      unresolved; one whose link is known resolves exactly as the value it links to. */
  lemma ResolveStep<T>(reference: string, lookup: Lookup<T>)
    ensures '/' !in reference ==> Finite(Reference(reference), lookup) && Resolve(Reference(reference), lookup) == None
    ensures Next(reference, lookup).None? ==> Finite(Reference(reference), lookup) && Resolve(Reference(reference), lookup) == None
    ensures Next(reference, lookup).Some? ==>
      var next := Next(reference, lookup).value;
      && (Finite(Reference(reference), lookup) <==> Finite(next, lookup))
      && (Finite(next, lookup) ==> Resolve(Reference(reference), lookup) == Resolve(next, lookup))
  {
    LastTwoSegmentsExist(reference);
    var r: ReferenceOr<T> := Reference(reference);
    match Next(reference, lookup)
    case None =>
      assert EndsWithin(r, lookup, 0);
    case Some(next) =>
      if Finite(next, lookup) {
        assert EndsWithin(r, lookup, Depth(next, lookup) + 1);
      }
      if Finite(r, lookup) {
        NextIsShorter(r, lookup, next);
      }
  }

  /** With no components every reference is unresolved, for both kinds of lookup. */
  lemma EmptyProviderResolvesNothing(reference: string)
    ensures Finite(Reference(reference), ParameterLookup(EmptyReferenceProvider))
    ensures Resolve(Reference(reference), ParameterLookup(EmptyReferenceProvider)) == None
    ensures Finite(Reference(reference), RequestBodyLookup(EmptyReferenceProvider))
    ensures Resolve(Reference(reference), RequestBodyLookup(EmptyReferenceProvider)) == None
  {
    ResolveStep(reference, ParameterLookup(EmptyReferenceProvider));
    ResolveStep(reference, RequestBodyLookup(EmptyReferenceProvider));
  }

  /** A chain of references, each linking to the next, that ends at an item resolves to
      that item, whatever its length. */
  lemma {:induction false} ResolveFollowsChain<T>(chain: seq<string>, item: T, lookup: Lookup<T>)
    requires |chain| > 0
    requires forall i :: 0 <= i < |chain| - 1 ==> Next(chain[i], lookup) == Some(Reference(chain[i + 1]))
    requires Next(chain[|chain| - 1], lookup) == Some(Item(item))
    ensures Finite(Reference(chain[0]), lookup)
    ensures Resolve(Reference(chain[0]), lookup) == Some(item)
  {
    ResolveStep(chain[0], lookup);
    if |chain| > 1 {
      ResolveFollowsChain(chain[1..], item, lookup);
    } else {
      assert EndsWithin(Item(item), lookup, 0);
    }
  }

  /** The latent defect: a reference that links to itself never ends, so the Rust
      recursion on it does not terminate. */
  lemma SelfReferenceNeverEnds<T>(reference: string, lookup: Lookup<T>)
    requires Next(reference, lookup) == Some(Reference(reference))
    ensures !Finite(Reference(reference), lookup)
  {
    forall n: nat ensures !EndsWithin(Reference(reference), lookup, n) {
      SelfReferenceNotWithin(reference, lookup, n);
    }
  }

  lemma {:induction false} SelfReferenceNotWithin<T>(reference: string, lookup: Lookup<T>, n: nat)
    requires Next(reference, lookup) == Some(Reference(reference))
    ensures !EndsWithin(Reference(reference), lookup, n)
  {
    if n > 0 {
      SelfReferenceNotWithin(reference, lookup, n - 1);
    }
  }

  /** Any cycle of references, such as A -> B -> A, never ends: each reference in it
      links to the next and the last links back to the first. */
  lemma CycleNeverEnds<T>(cycle: seq<string>, lookup: Lookup<T>)
    requires |cycle| > 0
    requires forall i :: 0 <= i < |cycle| ==> Next(cycle[i], lookup) == Some(Reference(cycle[(i + 1) % |cycle|]))
    ensures forall i :: 0 <= i < |cycle| ==> !Finite(Reference(cycle[i]), lookup)
  {
    forall i, n: nat | 0 <= i < |cycle| ensures !EndsWithin(Reference(cycle[i]), lookup, n) {
      CycleNotWithin(cycle, lookup, i, n);
    }
  }

  lemma {:induction false} CycleNotWithin<T>(cycle: seq<string>, lookup: Lookup<T>, i: nat, n: nat)
    requires 0 <= i < |cycle|
    requires forall j :: 0 <= j < |cycle| ==> Next(cycle[j], lookup) == Some(Reference(cycle[(j + 1) % |cycle|]))
    ensures !EndsWithin(Reference(cycle[i]), lookup, n)
    decreases n
  {
    if n > 0 {
      CycleNotWithin(cycle, lookup, (i + 1) % |cycle|, n - 1);
    }
  }

  /** The components provider answers "parameters" and "request_body" only: a reference
      written with the OpenAPI key "requestBodies" is unresolved even when the body
      exists, while the same name under "request_body" resolves to it. */
  lemma RequestBodyCategorySpelling(components: Components, name: string, body: RequestBody)
    requires '/' !in name && name in components.requestBodies
    requires components.requestBodies[name] == Item(body)
    ensures var lookup := RequestBodyLookup(ComponentReferenceProvider(components));
      && Finite(Reference("#/components/requestBodies/" + name), lookup)
      && Resolve(Reference("#/components/requestBodies/" + name), lookup) == None
      && Finite(Reference("#/components/request_body/" + name), lookup)
      && Resolve(Reference("#/components/request_body/" + name), lookup) == Some(body)
  {
    var lookup := RequestBodyLookup(ComponentReferenceProvider(components));
    var standard := "#/components/requestBodies/" + name;
    var spelled := "#/components/request_body/" + name;
    assert Next(standard, lookup) == None by {
      CategoryReferences(name);
      ComponentsPathSegments("requestBodies", name);
    }
    assert Next(spelled, lookup) == Some(Item(body)) by {
      CategoryReferences(name);
      ComponentsPathSegments("request_body", name);
    }
    ResolveStep(standard, lookup);
    ResolveFollowsChain([spelled], body, lookup);
  }

  lemma CategoryReferences(name: string)
    ensures "#/components/requestBodies/" + name == "#/components/" + "requestBodies" + "/" + name
    ensures "#/components/request_body/" + name == "#/components/" + "request_body" + "/" + name
  {
    assert "#/components/requestBodies/" == "#/components/" + "requestBodies" + "/";
    assert "#/components/request_body/" == "#/components/" + "request_body" + "/";
  }

  lemma ComponentsPathSegments(path: string, name: string)
    requires '/' !in path && '/' !in name
    ensures LastTwoSegments("#/components/" + path + "/" + name) == Some((path, name))
  {
    var pre := "#/components/";
    assert pre[|pre| - 1] == '/';
    LastTwoSegmentsOf(pre, path, name);
  }
}

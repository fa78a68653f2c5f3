# axum-from-openapi, modelled in Dafny

axum-from-openapi reads an OpenAPI 3 document and generates Rust source for an axum
server. For every GET, POST and PUT operation that has an `operationId` it builds a
handler descriptor. The descriptor holds:

- the snake-case id;
- the method;
- the path template, rewritten from `{param}` to `:` followed by `snake(param)`;
- the path parameters, with `$ref`s resolved through the document's components;
- the resolved request body.

Descriptors are grouped by the operation's first tag, or under `NoTag` when it has none.
For each tag the tool emits:

- one handler function per descriptor, or one per request-body content type;
- a routing list `((path, method), handler)`;
- a router module.

Finally it emits a module index and a server that nests every router under `/`.
`src/main.rs` is an earlier draft of the same pipeline. It has hard-wired resolvers,
verbatim descriptors, and a router generator that handles only the first descriptor of
each tag.

The project models that pipeline and proves its properties. Modules, in dependency order:

| module | file | what it is |
|---|---|---|
| `Wrappers` | `wrappers.dfy` | `Option` |
| `Strings` | `strings.dfy` | `split`, `split_once`, `replace`, ASCII lower-casing |
| `OpenApi` | `openapi.dfy` | the part of the `openapiv3` document model the tool reads |
| `Casing` | `casing.dfy` | what is assumed of `convert_case`'s snake case |
| `References` | `references.dfy` | `ReferenceProvider` and `reference_resolver` |
| `PathTemplate` | `path_template.dfy` | `modify_path_template` |
| `MultiMaps` | `multimap.dfy` | the `MultiMap` the descriptors are grouped in, as a class |
| `Collector` | `collector.dfy` | `process_operation` and the collection loop of `generate` |
| `Synthesis` | `synthesis.dfy` | handler, router and server generation, as records |
| `Generator` | `generator.dfy` | `generate` |
| `Draft` | `draft.dfy` | `src/main.rs` |

Modelling choices:

- **Snake case.** The `convert_case` crate's conversion is a function parameter
  `snake`. Two properties are stated of it as predicates in `Casing`, and each
  contract depends only on the ones it names:
  - `KeepsBraceCount`: it never adds a `{`. `modify_path_template` needs this to
    terminate.
  - `Idempotent`: used where the source converts an id that is already converted
    (src/lib.rs:124 and src/lib.rs:152).
  - ASCII lower-casing is proved to satisfy both.
- **Reference cycles.** `reference_resolver` has no cycle detection. Resolution
  therefore requires that the `$ref` chain from the value ends (`References.Finite`),
  and it recurses on the chain's remaining length. A self-reference is proved never
  to end.
- **Multimap order.** The multimap is hash-based, so the order in which `generate`
  visits tags is a parameter, `tagOrder`, required to list every tag exactly once.
  Order is claimed only within a tag's bucket.
- **Token streams.** A token stream is modelled by the record it describes:
  - `HandlerStub`: name, path-parameter extractors, body extractor;
  - `RouterModule`: module name, handlers module, routes;
  - `ServerModule`: include paths, nests.
- **Lockstep repetition.** The lockstep repetition of `quote!` stops at the shorter
  list (`Synthesis.Zip`).

Where the code departs from the OpenAPI 3 format or from what its output evidently
aims at, the model follows the code:

- OpenAPI 3 keeps reusable request bodies in `components` under the key
  `requestBodies`. The library resolves `$ref`s to request bodies under the category
  `request_body`, the draft under `request_bodies`, and neither finds a reference
  spelled with the standard `#/components/requestBodies/...`.
- The server calls `<tag>::router()` for each tag, but every generated router module
  is named `pets`, whatever the tag; only for the tag `pets` do the two agree.
- A path template `{name}` is an OpenAPI path parameter. An opening brace with no
  closing brace after it is not one; the code neither rejects nor keeps it, but drops
  the brace and copies the rest of the path.

## Model

| member | source | states |
|---|---|---|
| References.ResolveParameter | src/lib.rs:30-36 | a parameter is found exactly when the provider has components, the category is "parameters" and the name is in the table; it is that table entry |
| References.ResolveRequestBody | src/lib.rs:38-44 | a request body is found exactly when the provider has components, the category is "request_body" and the name is in the table; it is that entry |
| References.EmptyProviderResolvesNothing | src/lib.rs:46-53 | without components every reference fails at the first link, for parameters and request bodies alike |
| References.Resolve | src/lib.rs:55-77 | an item resolves to itself; a reference is followed link by link through the provider |
| References.LastTwoSegmentsExist | src/lib.rs:62-66 | the two pops both succeed exactly when the reference contains a `/` |
| References.LastTwoSegmentsShape | src/lib.rs:62-66 | the popped (category, name) contain no `/` and are the reference's final two segments |
| References.LastTwoSegmentsOf | src/lib.rs:62-66 | for any prefix ending in `/`, the pops return exactly the final category and name |
| References.ProviderSeesLastTwoSegments | src/lib.rs:66-67 | the provider is asked with the name first and the category second |
| References.ResolveStep | src/lib.rs:59-75 | a reference without `/` or with a failed lookup resolves to none; otherwise it resolves as its lookup result does, and ends exactly when that does |
| References.ResolveFollowsChain | src/lib.rs:55-77 | a chain of references whose last link reaches an item resolves to that item |
| References.SelfReferenceNeverEnds | src/lib.rs:55-77 | a reference whose lookup returns itself never ends, the unbounded recursion of the source |
| References.CycleNeverEnds | src/lib.rs:55-77 | no reference on a cycle of references of any length (such as A -> B -> A) ever ends, so the source recurses without bound on each |
| References.RequestBodyCategorySpelling | src/lib.rs:38-44 | `#/components/requestBodies/<name>` is unresolved while `#/components/request_body/<name>` resolves to the stored body |
| Casing.LowercasingMeetsLaws | src/lib.rs:109 | ASCII lower-casing satisfies both assumptions made of the case conversion |
| Casing.LowerKeepsBraces | src/lib.rs:109 | lower-casing keeps the number of `{` |
| PathTemplate.ModifyPathTemplate | src/lib.rs:264-279 | the result has no `{`; a path without `{` is returned unchanged |
| PathTemplate.ModifyIdempotent | src/lib.rs:264-279 | normalising a normalised path changes nothing |
| PathTemplate.ModifyKeepsPrefix | src/lib.rs:264-279 | a brace-free prefix is kept and only the rest is rewritten |
| PathTemplate.Placeholder | src/lib.rs:265-275 | the first placeholder `{name}` becomes `:` followed by the converted name, and the rest is normalised on its own |
| PathTemplate.UnmatchedBrace | src/lib.rs:266-272 | a `{` with no `}` after it is dropped and the text after it is kept |
| PathTemplate.TwoPlaceholders | src/lib.rs:264-279 | two placeholders are each rewritten, in order |
| PathTemplate.TwoPlaceholdersExample | src/lib.rs:264-279 | `/a/{fooBar}/b/{baz}` becomes `/a/:` + snake(fooBar) + `/b/:` + snake(baz) |
| MultiMaps.InsertAllBuckets | src/lib.rs:135 | after insertions a key holds its old values followed by exactly the inserted values under it, in insertion order; it is present exactly when it was or some entry carries it |
| MultiMaps.InsertAllKeepsNonEmpty | src/lib.rs:135 | insertion never creates an empty bucket |
| MultiMaps.InsertAllConcat | src/lib.rs:135 | inserting two batches is inserting their concatenation |
| MultiMaps.BucketConcat | src/lib.rs:135 | a key's values from two batches are those of each, in order |
| MultiMaps.MultiMap.Insert | src/lib.rs:135 | the key's bucket gains the value at its end and no other bucket changes |
| Collector.PathParams | src/lib.rs:98-114 | at most one name per declared parameter |
| Collector.CollectPathParams | src/lib.rs:98-114 | the loop computes the path-parameter list of the declared parameters |
| Collector.PathParamsConcat | src/lib.rs:102-114 | the list of two parameter sequences is the concatenation of their lists (declaration order kept) |
| Collector.DroppedParameter | src/lib.rs:103-112 | an unresolved parameter, or a query, header or cookie parameter, is dropped wherever it stands |
| Collector.KeptParameter | src/lib.rs:103-112 | a parameter resolving to a path parameter, inline or through `$ref`s, is kept where it stands under the converted name of its target |
| Collector.InlinePathParams | src/lib.rs:102-114 | inline path parameters are all kept, in order, each under its converted name |
| Collector.NoComponentsNoReferencedParams | src/lib.rs:100-114 | without components, referenced parameters contribute nothing |
| Collector.RequestBodyOf | src/lib.rs:116-121 | no declared body gives none; an inline body is taken as it is |
| Collector.NoComponentsNoReferencedBody | src/lib.rs:116-121 | without components a referenced request body resolves to none |
| Collector.TagOf | src/lib.rs:130-134 | the first tag, or "NoTag" when there is none |
| Collector.Describe | src/lib.rs:123-129 | the descriptor keeps the method, has the converted id, a path with no `{`, and at most one path parameter per declared parameter |
| Collector.OperationEntries | src/lib.rs:95-139 | an operation without id inserts nothing; one with an id inserts exactly one descriptor under its tag |
| Collector.ProcessOperation | src/lib.rs:88-142 | without id the multimap is unchanged; otherwise exactly the operation's descriptor is appended to its tag's bucket |
| Collector.ItemEntries | src/lib.rs:354-382 | a path item contributes at most three descriptors |
| Collector.PathEntries | src/lib.rs:350-387 | at most three descriptors per path |
| Collector.ProcessItem | src/lib.rs:354-382 | the item's GET, POST and PUT operations are inserted in that order |
| Collector.CollectOperations | src/lib.rs:350-387 | the multimap holds the insertions of every path in document order; referenced path items are skipped |
| Collector.GroupedByTag | src/lib.rs:350-387 | each tag holds exactly the descriptors filed under it, in visiting order, and is present exactly when it holds one |
| Collector.CollectedPathsNormalised | src/lib.rs:126 | every collected descriptor has a path with no `{` |
| Collector.OperationFiling | src/lib.rs:95-138 | an operation without id lands in no bucket; one with an id and no tags lands in "NoTag" only |
| Collector.MethodOrder | src/lib.rs:354-382 | a path item's operations are visited GET, then POST, then PUT |
| Synthesis.AdjustContentType | src/lib.rs:144-146 | every `/` becomes `_`, nothing else changes, the length is kept |
| Synthesis.MediaTypeName | src/lib.rs:144-146 | a media type `type/subtype` becomes `type_subtype` |
| Synthesis.AdjustConcat | src/lib.rs:144-146 | adjusting works piece by piece |
| Synthesis.MethodIdent | src/lib.rs:151 | the method ident is "get", "post" or "put" |
| Synthesis.GenerateContentHandlers | src/lib.rs:148-243 | the loop computes one routing entry and one handler per content type, or a single one without a body |
| Synthesis.ContentRoutesMatchStubs | src/lib.rs:215-218 | each routing entry names the handler generated beside it, under the descriptor's path and method, with the descriptor's path parameters |
| Synthesis.BodyHandlersPerContentType | src/lib.rs:170-220 | with a request body: one handler and one route per content type, named `<converted id>_<adjusted content type>`; every handler takes the body, mandatory exactly when the body is required |
| Synthesis.EmptyContentYieldsNothing | src/lib.rs:170-220 | a request body with no content type yields no handler and no route |
| Synthesis.TwoContentTypesShareRoute | src/lib.rs:170-220 | two content types give two handlers with distinct names under the same (path, method) |
| Synthesis.NamesDistinct | src/lib.rs:172 | distinct adjusted content types give distinct handler names |
| Synthesis.HandlerNameIsConvertedOnce | src/lib.rs:124 | for an idempotent conversion, a bodiless operation's handler is named by one conversion of its id |
| Synthesis.GenerateHandlers | src/lib.rs:244-263 | the routing list and handlers are the in-order concatenation of each descriptor's |
| Synthesis.AllRoutesMatchStubs | src/lib.rs:244-263 | across a tag the i-th routing entry names the i-th generated handler |
| Synthesis.AllRoutesConcat | src/lib.rs:249-253 | the routes of two descriptor lists are those of each, concatenated |
| Synthesis.AllStubsConcat | src/lib.rs:249-253 | the handlers of two descriptor lists are those of each, concatenated |
| Synthesis.OneHandlerPerBodilessDescriptor | src/lib.rs:221-240 | descriptors without a request body give exactly one handler each |
| Synthesis.Unzip | src/lib.rs:282-284 | the two lists have the input's length and hold its components position by position |
| Synthesis.Zip | src/lib.rs:295 | the lockstep repetition has the shorter length and pairs elements position by position |
| Synthesis.ZipUnzip | src/lib.rs:282-295 | unzipping and repeating in lockstep gives back the original list |
| Synthesis.UnzipZip | src/lib.rs:282-295 | zipping equal-length lists and unzipping gives the lists back |
| Synthesis.GenerateRouter | src/lib.rs:281-299 | module "pets" importing `<tag>_handlers`, with one route per entry, in order, path, method and handler aligned |
| Synthesis.RouterNameIgnoresTag | src/lib.rs:288 | for any tag other than "pets" the router module is not named after the tag |
| Synthesis.GenerateServer | src/lib.rs:323-336 | one include `/<router>.rs` per router and one nest per (prefix, router) pair, entry for entry, as many as the shorter list |
| Generator.ProviderFor | src/lib.rs:341-346 | the component provider exactly when the document has components |
| Generator.TagOutputFor | src/lib.rs:398-408 | the tag's handlers module is `<tag>_handlers` and is the one its router imports; the router has one route per handler and each route names its handler |
| Generator.ModIndex | src/lib.rs:410-419 | no index without tags; otherwise one `<tag>_handlers` module per tag |
| Generator.TagOutputs | src/lib.rs:398-408 | one output per tag, in the given order |
| Generator.GenerateTag | src/lib.rs:398-408 | the per-tag body computes the tag's output |
| Generator.GenerateTags | src/lib.rs:395-408 | the loop computes every tag's output, the tags as router idents and the prefix "/" for each |
| Generator.Generate | src/lib.rs:338-422 | one output per tag from the tag's collected bucket, the module index, and a server with one include and one nest at "/" per tag |
| Generator.TagHandlersFollowDocument | src/lib.rs:350-408 | each tag's handlers and its whole router are generated from exactly the descriptors filed under it, in document order |
| Generator.SingleGetEndToEnd | src/lib.rs:338-408 | a single tagged GET on `pre{param}` yields one descriptor with path `pre:snake(param)` and path parameters `[snake(param)]`, one bodiless handler and one route to it |
| Draft.SchemaReferenceResolver | src/main.rs:15-42 | the draft schema resolver is generic resolution through the "schemas" table |
| Draft.RequestBodiesReferenceResolver | src/main.rs:44-71 | the draft body resolver is generic resolution through the "request_bodies" table |
| Draft.RequestBodySpellingsDiffer | src/main.rs:57 | `request_bodies` references resolve in the draft but not in the library; `requestBodies` resolves in neither |
| Draft.SelfReferentialSchema | src/main.rs:29-30 | a self-referential schema never resolves: the draft recursion would not end |
| Draft.DraftEntries | src/main.rs:86-98 | without id nothing is inserted; otherwise one verbatim descriptor under the first tag or "NoTag" |
| Draft.ProcessOperationDraft | src/main.rs:80-105 | the multimap gains exactly the operation's verbatim descriptor, if it has an id |
| Draft.DraftKeepsTemplate | src/main.rs:88-92 | for a templated path the draft descriptor's path differs from the library's |
| Draft.DraftItemEntries | src/main.rs:159-183 | a path item contributes at most three descriptors |
| Draft.DraftPathEntries | src/main.rs:155-189 | at most three descriptors per path |
| Draft.ProcessItemDraft | src/main.rs:159-183 | GET, POST and PUT are inserted in that order |
| Draft.CollectDraft | src/main.rs:155-189 | the multimap holds the insertions of every path in document order |
| Draft.DraftTagsNonEmpty | src/main.rs:155-189 | every collected tag holds at least one descriptor |
| Draft.GenerateRouterDraft | src/main.rs:109-139 | no handler and no route for an empty list; otherwise only the first descriptor's handler and its route `<method>(<id>)` under its verbatim path |
| Draft.FirstHandler | src/main.rs:112-129 | at most one handler, the first descriptor's |
| Draft.DraftRouters | src/main.rs:191-199 | one `<tag>_router.rs` per tag, in order, with its first handler |
| Draft.RunDraft | src/main.rs:148-199 | for an order listing every collected tag exactly once: the routers of those tags, in that order, each with exactly one handler |

## Left out

- Deserialisation of the JSON input (`serde_json`), and the embedded file of `src/main.rs`: a parsed `OpenAPI` value is the input.
- File output (`save_generated_file`, `save_generated_file_to_dir`, `sanitize_and_save`, `sanitize_and_save_to_dir`), the `OUT_DIR` variable and directory creation, because they are I/O. The generated modules are returned instead.
- Parsing and pretty-printing with `syn`/`prettyplease`: the `unwrap` panic on tokens that do not parse is not modelled.
- `println!` diagnostics.
- The Rust text of the generated handlers: their signatures' exact tokens, the JSON payload shape and the `params` echo. Each handler is a record of name, path-parameter names and body kind.
- `format_ident!` panics on any string that is not a valid Rust identifier, and the model has no such failure: every name is a plain string and every document yields output. The source aborts where the model still produces output:
  - a handler name whose content type has `+` or `.` (src/lib.rs:173);
  - a snake-cased path-parameter name (src/lib.rs:163);
  - a tag such as `Pet Store` or `pet-store`, which names the handlers module, the router ident and the module index (src/lib.rs:286, 406 and 412);
  - the draft's verbatim operation id used as a handler name (src/main.rs:113).
- Generator.Generate: produces outputs such as the handlers module `Pet Store_handlers` even for tags on which the source panics, because of the `format_ident!` line above.
- Draft.RunDraft: produces routers even for operation ids on which the source panics, because of the `format_ident!` line above.
- The case conversion itself: `convert_case` is a parameter with the two stated properties, not an implementation.
- The order in which the hash-based multimap yields its tags: it is a parameter, and nothing is claimed about it beyond "each tag once". One order is used for the per-tag loop and the server nests (`iter_all()`, src/lib.rs:398) and for the module index (`keys()`, src/lib.rs:410-412). The assumption is that both traverse the same unmodified `HashMap` and so visit its keys in the same order.
- Media-type objects, responses, schemas' structure and every document field the tool ignores.
- Operations other than GET, POST and PUT, which the source never visits.
- axum-generated/src/main.rs and axum-generated/build.rs, the generated crate's own entry point and build script, which contain no generator logic.
- References.Resolve: requires that the `$ref` chain ends; on a cyclic chain the source recurses without bound, which the model shows for cycles of any length (`CycleNeverEnds`) but does not execute.
- Draft.GenerateRouterDraft: the routes multimap it fills is local to the Rust function and never reaches the output. The model returns it only so that its contents can be stated.

/** The subset of the OpenAPI 3.0 document model (the `openapiv3` crate types) that the
    generator reads.  Deserialisation from JSON is outside the model: a parsed `OpenAPI`
    value is the input. */
module OpenApi {
  import opened Wrappers

  /** `ReferenceOr<T>`: either a `$ref` string or the object itself. */
  datatype ReferenceOr<+T> = Reference(reference: string) | Item(item: T)

  datatype ParameterData = ParameterData(name: string, required: bool)

  /** A parameter, by location; only `Path` parameters reach a handler. */
  datatype Parameter =
    | Query(queryData: ParameterData)
    | Header(headerData: ParameterData)
    | Path(pathData: ParameterData)
    | Cookie(cookieData: ParameterData)

  /** A request body: its media-type keys in document order (the media-type objects
      themselves are never read) and whether it is required. */
  datatype RequestBody = RequestBody(content: seq<string>, required: bool)

  /** A schema; its structure is never inspected. */
  datatype Schema = Schema(title: string)

  datatype Operation = Operation(
    tags: seq<string>,
    operationId: Option<string>,
    parameters: seq<ReferenceOr<Parameter>>,
    requestBody: Option<ReferenceOr<RequestBody>>)

  /** The three methods of a path item that the generator visits. */
  datatype PathItem = PathItem(get: Option<Operation>, post: Option<Operation>, put: Option<Operation>)

  datatype Components = Components(
    schemas: map<string, ReferenceOr<Schema>>,
    parameters: map<string, ReferenceOr<Parameter>>,
    requestBodies: map<string, ReferenceOr<RequestBody>>)

  /** The document: path templates in document order, and the optional components. */
  datatype OpenAPI = OpenAPI(paths: seq<(string, ReferenceOr<PathItem>)>, components: Option<Components>)

  /** `http::Method`, restricted to the methods the generator handles. */
  datatype Method = GET | POST | PUT

  /** `Method::to_string()`. */
  function MethodName(m: Method): string
  {
    match m
    case GET => "GET"
    case POST => "POST"
    case PUT => "PUT"
  }
}

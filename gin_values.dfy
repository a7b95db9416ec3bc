/** Values that cross the gateway: errors, request and reply values, the per-request context
    and the type descriptors that stand in for Go reflection. */
module GinValues {
  import opened Wrappers

  /** A Go error. StatusError is a gRPC status error, carrying its code name and description. */
  datatype Error = PlainError(text: string) | StatusError(code: string, desc: string)

  /** err.Error() */
  function ErrorText(e: Error): string
  {
    match e
    case PlainError(t) => t
    case StatusError(code, desc) => "rpc error: code = " + code + " desc = " + desc
  }

  /** grpc.ErrorDesc(err): the description of a status error, err.Error() of any other error. */
  function ErrorDesc(e: Error): string
  {
    match e
    case PlainError(t) => t
    case StatusError(_, desc) => desc
  }

  /** A Go value seen through interface{}: nil, an error, a protobuf message, or any other value. */
  datatype Value = Nil | ErrorValue(err: Error) | ProtoMessage(fields: map<string, string>) | PlainValue(json: string)

  /** The result pair (reply interface{}, err error) of a HandleFunc or an Interceptor. */
  datatype Reply = Reply(value: Value, err: Option<Error>)

  /** The request's context.Context, reduced to the metadata the gateway attaches to it. */
  datatype Context = Context(md: map<string, seq<string>>)

  /** The two interfaces the registry tests for with reflect.Type.Implements. */
  datatype Interface = ContextInterface | ErrorInterface

  /** A reflect.Type: a pointer to another type, or a non-pointer type with its name
      ("" for an unnamed type) and package path ("" for a builtin or unnamed type). Slice, map,
      channel and array types are not represented. */
  datatype Type =
    | Pointer(elem: Type, implements: set<Interface>)
    | Named(name: string, pkgPath: string, implements: set<Interface>)
}

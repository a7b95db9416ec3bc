# A verified model of the micro gateway, database helpers and rotating logger

This project models, in Dafny, the deterministic core of the Go repository `sujunbo/micro`.

**The gin gateway (`transport/http/gin`)** turns the exported methods of a Go value into HTTP routes:
- the service registry checks method signatures and builds a name-indexed table;
- the binding resolver reads `google.api.HttpRule` annotations into (HTTP method, path pattern, body) rules;
- the handler registers one route per (method, rule) and rewrites request paths;
- each request goes through metadata assembly, request decoding and the interceptor chain;
- the default codec turns an error into a `{code, message}` pair.

**The database helpers (`db`)** cover:
- defaulting the MySQL options in place, and building the data source name;
- reading the database name back out of a data source name;
- reading a table name out of a SQL statement;
- the event receiver's slow-query test.

**The logger (`log`)** covers:
- defaulting the logger options in place;
- one zap sub-logger per level, from the configured level up to "error";
- the size- and time-rotated file: its rotation decision, file creation and backup sweep.

One module per source file:

| module | file |
|---|---|
| `GinService` | `service.go` |
| `GinHttpRuler` | `http_ruler.go` |
| `GinHandler` | `handler.go` |
| `GinInterceptor` | `interceptor.go` |
| `GinMetadata` | `metadata.go` |
| `GinCodec` | `default_codec.go` |
| `GinOption` | `option.go` |
| `DbEvent` | `event.go` |
| `DbOpen` | `db.go` |
| `LogZap` | `zap.go` |
| `LogRotate` | `rotate.go` |
| `LogOption` | `log/option.go` |

Shared modules:
- `Wrappers`: Option and Result.
- `Strings`: ASCII string helpers. These stand for Go's `strings` package: Split, Join, TrimSpace, Index, LastIndex, ToLower, Replace, and string comparison.
- `Seqs`: generic sequence facts.
- `GinValues`: errors, values, replies, the request context, and the type descriptors that replace reflection.
- `GinNaming`: `ToUnderLine`, `getMethodName`, and the joint of `path.Join`. These are split out of `handler.go` because `http_ruler.go` calls `ToUnderLine` while `handler.go` calls into `http_ruler.go`, and Dafny modules cannot import each other in a cycle.

Modelling conventions:
- **Go panics** are modelled as a `None` result, a `Failure`, or a `panicked`/`ok` flag. They are never preconditions. One such case cannot arise: `GinService.Call` answers a second result that is not an error with an error reply, but `Admit` only registers methods whose second result is an error.
- **Go values that the source updates in place** are Dafny classes whose methods state their new state through a `Snapshot()` function:
  - `*Options` of `db.Open`;
  - `*Option` of `log`;
  - `RotateFile` and the rotate `Options`;
  - `protoExtend`;
  - `Handler`;
  - `Metadata`;
  - the gateway `Options`;
  - `ZapLogger`.
- **Loops of the source** are methods with loop invariants, proved equal to a specification function. The properties are proved about that function.
- **The outside world is made of inputs:**
  - the clock is an `int` of nanoseconds;
  - time formatting is a `Calendar` of two functions;
  - the file system's answers are a `Disk` value;
  - `time.ParseDuration` is a function parameter;
  - the decoded proto descriptor is a `FileDesc` value;
  - a method's `Func.Call` is a stored function.
- **Go map iteration order** is arbitrary. Loops over maps pick any remaining key, and `RegisterService` exposes the order it visited as a ghost result.

## Model

| member | source | states |
|---|---|---|
| `GinService.IsExported` | transport/http/gin/service.go:133-137 | true iff the name is non-empty and starts with an upper-case letter; so the empty name is not exported |
| `GinService.Deref` | transport/http/gin/service.go:141-143 | stripping pointers always ends at a named type |
| `GinService.ExportedOrBuiltin` | transport/http/gin/service.go:140-147 | isExportedOrBuiltin: the innermost named type is exported or has an empty package path; see IsExportedOrBuiltin, ExportedOrBuiltinThroughPointer |
| `GinService.ExportedOrBuiltinThroughPointer` | transport/http/gin/service.go:139-147 | a pointer level never changes whether a type is exported or builtin |
| `GinService.IsExportedOrBuiltin` | transport/http/gin/service.go:140-147 | the pointer-stripping loop gives exactly the exported-or-builtin answer for the innermost type |
| `GinService.Admit` | transport/http/gin/service.go:102-131 | newServiceMethod: skipped, fatal (a panic) or accepted, in the source's check order; see AdmitAccepted, AdmitSkips, SignatureBeforeRequest, AdmitFatal, TableNames |
| `GinService.AdmitAccepted` | transport/http/gin/service.go:102-131 | an accepted method is exported, has 3 inputs and 2 outputs, takes a context and returns an error; its ReqType and RespType are the pointees of the request parameter and the first result; its request type is exported or builtin |
| `GinService.SignatureBeforeRequest` | transport/http/gin/service.go:111-117 | with the right arity, a first parameter that is not a context or a last result that is not an error is fatal (a panic), whatever the request type |
| `GinService.AdmitFatal` | transport/http/gin/service.go:102-131 | newServiceMethod panics exactly for an exported method with 3 inputs and 2 outputs whose context parameter or error result is wrong, or whose admitted request pointer comes with a first result Elem cannot take |
| `GinService.AdmitSkips` | transport/http/gin/service.go:103-123 | the three silent skips: unexported, wrong arity, request not a pointer to an exported or builtin type |
| `GinService.Table` | transport/http/gin/service.go:90-97 | register's method loop, each accepted method stored under its name and None for a panic; see TableFatal, TableKeys, TableNames, Register |
| `GinService.TableFatal` | transport/http/gin/service.go:90-97 | the method table is missing (register panics) exactly when some method's signature check panics |
| `GinService.TableKeys` | transport/http/gin/service.go:91-97 | the table's keys are exactly the names of the accepted methods |
| `GinService.TableNames` | transport/http/gin/service.go:91-97 | each entry is, for some listed method of that name, exactly the ServiceMethod newServiceMethod accepted it as |
| `GinService.RPCService.constructor` | transport/http/gin/service.go:80-85 | a service with the given name and an empty method table |
| `GinService.RPCService.MethodByName` | transport/http/gin/service.go:45-48 | some method exactly when the name is registered, and then that one |
| `GinService.RPCService.Methods` | transport/http/gin/service.go:36-43 | one item per registered method: as many items as methods, each item a registered method, each method among the items |
| `GinService.CollectValues` | transport/http/gin/service.go:38-41 | the range loop of Methods: one value per key, each key visited exactly once, as many values as keys |
| `GinService.ServiceTypeName` | transport/http/gin/service.go:85 | the type name after one pointer level; see Register |
| `GinService.Register` | transport/http/gin/service.go:78-100 | an unexported type name gives the "no service name" error and no service; a panicking signature gives an error; otherwise a fresh service named after the type holds exactly the method table |
| `GinService.Call` | transport/http/gin/service.go:62-76 | an error result carries a nil reply; no error iff exactly two results with a nil error, and then the reply is the first result; a non-nil error result is returned as the error |
| `GinHttpRuler.Title` | transport/http/gin/http_ruler.go:61 | strings.Title keeps the length |
| `GinHttpRuler.TitleIdentifier` | transport/http/gin/http_ruler.go:61 | on an identifier, only the first letter is upper-cased |
| `GinHttpRuler.TitleGetUser` | transport/http/gin/http_ruler.go:61 | "getUser" is stored under "GetUser" |
| `GinHttpRuler.GinMethodPattern` | transport/http/gin/http_ruler.go:101-104 | the result holds no brace, and is shorter than the input by the number of '}'; GinMethodPatternAppend and GinMethodPatternChar give its full content |
| `GinHttpRuler.GinMethodPatternPlain` | transport/http/gin/http_ruler.go:101-104 | a pattern without braces is kept as it is |
| `GinHttpRuler.GinMethodPatternIdempotent` | transport/http/gin/http_ruler.go:101-104 | converting twice is converting once |
| `GinHttpRuler.GinMethodPatternPlaceholder` | transport/http/gin/http_ruler.go:101-104 | a trailing placeholder "{x}" becomes ":x" and the rest is kept in order |
| `GinHttpRuler.GinMethodPatternUsers` | transport/http/gin/http_ruler.go:101-104 | "/users/{id}" becomes "/users/:id" |
| `GinHttpRuler.GinMethodPatternAppend` | transport/http/gin/http_ruler.go:101-104 | the conversion of a concatenation is the concatenation of the conversions |
| `GinHttpRuler.GinMethodPatternChar` | transport/http/gin/http_ruler.go:101-104 | '{' becomes ':', '}' is dropped, and every other character is kept |
| `GinHttpRuler.GinMethodPatternMidPath` | transport/http/gin/http_ruler.go:101-104 | a placeholder in mid-path, "a{x}b", becomes "a:xb" |
| `GinHttpRuler.GinMethodPatternTwoPlaceholders` | transport/http/gin/http_ruler.go:101-104 | two placeholders, "a{x}b{y}", become "a:xb:y" |
| `GinHttpRuler.MethodPattern` | transport/http/gin/http_ruler.go:84-99 | panics (None) exactly on a rule with no pattern; otherwise the pattern is the converted path |
| `GinHttpRuler.MethodPatternVerbs` | transport/http/gin/http_ruler.go:85-96 | Get, Post, Patch, Put and Delete give "GET", "POST", "PATCH", "PUT" and "DELETE"; Custom gives its kind |
| `GinHttpRuler.SetupStep` | transport/http/gin/http_ruler.go:48-61 | one method of setup's inner loop: skip, error, or store the rule under the title-cased name; see SetupSnoc, SetupStores |
| `GinHttpRuler.Setup` | transport/http/gin/http_ruler.go:46-64 | setup's loops over the flattened methods, stopping at the first error; see SetupFails, SetupKeys, SetupStores, SetupStopped, EarlyStop, SetupSnoc, ProtoExtend.SetupFrom |
| `GinHttpRuler.SetupFails` | transport/http/gin/http_ruler.go:46-63 | setup fails exactly when some method has options that do not yield an HttpRule |
| `GinHttpRuler.SetupKeys` | transport/http/gin/http_ruler.go:46-63 | after a successful setup, the keys are exactly the title-cased names of the annotated methods; methods without options are skipped |
| `GinHttpRuler.SetupStores` | transport/http/gin/http_ruler.go:57-61 | the rule stored under a method's title-cased name is that method's own rule |
| `GinHttpRuler.SetupStopped` | transport/http/gin/http_ruler.go:52-60 | once setup has failed, later methods change nothing |
| `GinHttpRuler.EarlyStop` | transport/http/gin/http_ruler.go:52-60 | an error at method j of service i is the outcome of the whole setup |
| `GinHttpRuler.SetupSnoc` | transport/http/gin/http_ruler.go:47-61 | one more method after a successful setup is exactly one more loop step |
| `GinHttpRuler.ProtoExtend.constructor` | transport/http/gin/http_ruler.go:27-30 | the given proto name and an empty rule map |
| `GinHttpRuler.ProtoExtend.SetupFrom` | transport/http/gin/http_ruler.go:46-64 | the nested loop leaves the rule map and the error that setup defines over all methods of all services, in order |
| `GinHttpRuler.ProtoExtend.SetupMethods` | transport/http/gin/http_ruler.go:47-62 | the inner loop over one service's methods: one setup step per method, stopping at the first failure |
| `GinHttpRuler.ProtoExtend.MethodHttpRules` | transport/http/gin/http_ruler.go:68-82 | the rules of a method, as RulesFor defines them over the current map |
| `GinHttpRuler.BindAll` | transport/http/gin/http_ruler.go:77-80 | the loop over the additional bindings gives exactly Bind's rules, or the panic |
| `GinHttpRuler.NewProtoExtend` | transport/http/gin/http_ruler.go:26-38 | an empty proto name gives an empty map and no error; a decode failure is returned as the error; otherwise the map and error are setup's |
| `GinHttpRuler.Bind` | transport/http/gin/http_ruler.go:77-80 | one rule per additional binding |
| `GinHttpRuler.BindRules` | transport/http/gin/http_ruler.go:77-80 | the i-th rule has the i-th binding's method and pattern and the primary rule's body |
| `GinHttpRuler.BindDefined` | transport/http/gin/http_ruler.go:77-80 | binding succeeds exactly when every binding's pattern is supported |
| `GinHttpRuler.RulesFor` | transport/http/gin/http_ruler.go:68-82 | methodHttpRules, None for the panic of an unset pattern; see RulesForAbsent, RulesForPresent, RulesForPanics, ProtoExtend.MethodHttpRules |
| `GinHttpRuler.RulesForAbsent` | transport/http/gin/http_ruler.go:69-73 | a method without a rule gets exactly one rule: POST to its underscore name, with body "*" |
| `GinHttpRuler.RulesForPresent` | transport/http/gin/http_ruler.go:75-81 | a method with a rule gets 1 + len(AdditionalBindings) rules: the primary first, then the bindings in order, all with the primary rule's body |
| `GinHttpRuler.RulesForPanics` | transport/http/gin/http_ruler.go:75-80 | for a method with a rule, methodHttpRules panics exactly when its pattern or one binding's pattern is unset |
| `GinNaming.UnderLine` | transport/http/gin/handler.go:117-131 | ToUnderLine, None for the panic on the empty name; see ToUnderLine, UnderLineNoCapitals, UnderLineIdentity, UnderLineEmpty, UnderLineGetUser |
| `GinNaming.ToUnderLine` | transport/http/gin/handler.go:117-131 | the append loop followed by dropping one leading '_' is exactly UnderLine |
| `GinNaming.UnderLineNoCapitals` | transport/http/gin/handler.go:117-131 | on non-empty ASCII input the result exists and holds no capital letter |
| `GinNaming.UnderLineIdentity` | transport/http/gin/handler.go:117-131 | ASCII input without capitals and not starting with '_' comes back unchanged |
| `GinNaming.UnderLineEmpty` | transport/http/gin/handler.go:127 | the empty name panics at dest[0] |
| `GinNaming.UnderLineGetUser` | transport/http/gin/handler.go:117-131 | "GetUser" becomes "get_user" |
| `GinNaming.GetMethodName` | transport/http/gin/handler.go:133-135 | the result holds no '/', is a suffix of the path right after its last '/', and is the whole path when there is no '/' |
| `GinNaming.JoinPath` | transport/http/gin/handler.go:56 | path.Join(prefix, pattern) reduced to its joint; see JoinPathJoint, JoinDefaultPrefix and the "JoinPath:" line under "## Left out" |
| `GinNaming.JoinPathJoint` | transport/http/gin/handler.go:56 | the prefix and the pattern meet at exactly one '/' |
| `GinNaming.JoinDefaultPrefix` | transport/http/gin/handler.go:50-56 | the default prefix "/Svc/" and the pattern "get_user" join to "/Svc/get_user" |
| `GinHandler.PrefixFor` | transport/http/gin/handler.go:49-52 | a configured prefix is used verbatim; otherwise it is "/" + service name + "/" |
| `GinHandler.RuleRoutes` | transport/http/gin/handler.go:55-57 | one route per rule, in rule order, each with the rule's method and the method's handler |
| `GinHandler.RoutesOf` | transport/http/gin/handler.go:53-58 | the routes RegisterService adds over the visited order, None for a panic; see RoutesOfDefined, RoutesOfLength, RoutesOfSnoc, RoutesOfCoverRules, Handler.RegisterService |
| `GinHandler.RoutesOfDefined` | transport/http/gin/handler.go:53-58 | registration succeeds exactly when every visited method has rules |
| `GinHandler.RoutesOfLength` | transport/http/gin/handler.go:53-58 | exactly one route per (method, rule) pair: the sum over the methods of their rule counts |
| `GinHandler.RoutesOfSnoc` | transport/http/gin/handler.go:53-58 | visiting one more method appends exactly its routes |
| `GinHandler.RoutesOfCoverRules` | transport/http/gin/handler.go:53-58 | every rule of every visited method is registered under the joined path with that method's handler |
| `GinHandler.RegisterGetUser` | transport/http/gin/handler.go:37-59 | the service "Svc" with the one method GetUser and no proto file gets exactly the route POST /Svc/get_user |
| `GinHandler.RewritePath` | transport/http/gin/handler.go:65-76 | panics exactly when the path has no '/'; with a configured prefix the path is unchanged |
| `GinHandler.RewriteKeepsMethodName` | transport/http/gin/handler.go:71-73 | without a prefix the path becomes "/" + service name + "/" + the text after the last '/' |
| `GinHandler.RewriteReachesDefaultRoute` | transport/http/gin/handler.go:71-73 | a request for ".../get_user" reaches "/Svc/get_user" |
| `GinHandler.RewriteMissesNestedRoutes` | transport/http/gin/handler.go:71-73 | without a prefix a rewritten path never matches a route with more than two '/' |
| `GinHandler.ParamsMap` | transport/http/gin/handler.go:137-144 | ginParams' map, the params Set in order; see ParamsKeysLower, ParamsLookupMissing, ParamsLastWins, GinParams |
| `GinHandler.ParamsKeysLower` | transport/http/gin/handler.go:137-144 | every key of the path-parameter map is lower-case |
| `GinHandler.ParamsLookupMissing` | transport/http/gin/handler.go:137-144 | a key no parameter has (ignoring case) reads as "" |
| `GinHandler.ParamsLastWins` | transport/http/gin/handler.go:137-144 | the last parameter with a key (ignoring case) is what Get returns for it |
| `GinHandler.DoHandle` | transport/http/gin/handler.go:100-109 | doHandle: a decode error answers at once, else the chain runs around call; see DecodeErrorShortCircuits, DefaultChainCallsMethod |
| `GinHandler.Respond` | transport/http/gin/handler.go:90-95 | the one Encode call, with the error when there is one; see ErrorIsEncoded, DecodeErrorShortCircuits |
| `GinHandler.DecodeErrorShortCircuits` | transport/http/gin/handler.go:100-106 | on a decode error the answer does not depend on the chain or the method, and the codec encodes the error |
| `GinHandler.ErrorIsEncoded` | transport/http/gin/handler.go:90-95 | Encode is called with the error, never the reply, when there is an error |
| `GinHandler.DefaultChainCallsMethod` | transport/http/gin/handler.go:100-109 | with the default chain the answer is the method's own call result |
| `GinHandler.SyntheticKeysWin` | transport/http/gin/handler.go:81-85 | the three synthetic keys read back their own values after the join, and every query and path key is kept |
| `GinHandler.Stamped` | transport/http/gin/handler.go:82-84 | the map after the three Set calls; see StampedEntries, SyntheticKeysWin, Stamp |
| `GinHandler.StampedEntries` | transport/http/gin/handler.go:82-84 | the three Set calls add exactly the three keys, with one value each, and leave every other entry alone |
| `GinHandler.JoinedValues` | transport/http/gin/handler.go:85 | after the join, a key's list is the stamped header's list, then the query's, then the params' |
| `GinHandler.QueryBeforeParams` | transport/http/gin/handler.go:85 | a query value beats a path parameter with the same key when the header lacks that key |
| `GinHandler.ParamsWhenAlone` | transport/http/gin/handler.go:85 | a key that neither the header nor the query carries reads the path parameter's value |
| `GinHandler.VisitedStep` | transport/http/gin/handler.go:53 | visiting one more key of the method map keeps every visited key listed exactly once |
| `GinHandler.Handler.constructor` | transport/http/gin/handler.go:29-32 | the given options and no routes |
| `GinHandler.Handler.RegisterService` | transport/http/gin/handler.go:37-59 | panics when registration or the proto rules fail; otherwise the service name is set to the type name, the old routes are kept, and the new routes are exactly those of all methods in the visited order |
| `GinHandler.Handler.AddServiceRoutes` | transport/http/gin/handler.go:53-58 | succeeds iff every method has rules; then every method is visited once and the routes appended are exactly those of the visited order |
| `GinHandler.Handler.AddRuleRoutes` | transport/http/gin/handler.go:55-57 | appends exactly one route per rule, in rule order |
| `GinHandler.Handler.AddRoute` | transport/http/gin/handler.go:56 | one h.Handle call appends exactly its route after the ones before it and leaves the options alone |
| `GinHandler.Handler.ServeHTTP` | transport/http/gin/handler.go:65-76 | panics exactly when the path has no '/'; otherwise the path becomes the rewritten one |
| `GinHandler.Handler.Handle` | transport/http/gin/handler.go:78-98 | the request metadata is exactly the join of the stamped header map NewMetadata gives, the query and the path params; Get returns the time, the method name and the client IP; the response is the codec applied to doHandle's reply |
| `GinHandler.Request.constructor` | transport/http/gin/handler.go:65 | a request with the given path |
| `GinHandler.RequestMetadata` | transport/http/gin/handler.go:81-85 | the metadata is exactly Join of the stamped "-"-keys of the header, the query and the path params; Get returns the three synthetic values, and every query and path key is present |
| `GinHandler.Stamp` | transport/http/gin/handler.go:82-84 | each of the three keys holds exactly its one value, and every other entry stays as it was |
| `GinHandler.NewHandler` | transport/http/gin/handler.go:19-35 | the defaults, then every option in order, and no routes |
| `GinHandler.GinParams` | transport/http/gin/handler.go:137-144 | a fresh map holding exactly the parameters Set in order |
| `GinInterceptor.Nop` | transport/http/gin/interceptor.go:12-14 | NopInterceptor: calls the next handler with the same context and request; see ChainNop, DefaultChainRunsHandler |
| `GinInterceptor.Wrap` | transport/http/gin/interceptor.go:19-23 | buildChain: the handler that runs the current interceptor with the rest of the chain as next; see FoldUnfold, ChainOutermost, ShortCircuit |
| `GinInterceptor.Fold` | transport/http/gin/interceptor.go:18-30 | the chain as a right fold with the handler as seed; see BuildChain, FoldUnfold, ChainOutermost, RecordersAround |
| `GinInterceptor.ChainInterceptors` | transport/http/gin/interceptor.go:17-31 | ChainInterceptors: one interceptor running the fold around its handler; see ChainUnfold, ChainEmpty, ChainNop, ShortCircuit, TraceOfTwo, StopHidesRest |
| `GinInterceptor.BuildChain` | transport/http/gin/interceptor.go:25-28 | the backward wrapping loop builds exactly the right fold of the interceptors around the handler |
| `GinInterceptor.ChainUnfold` | transport/http/gin/interceptor.go:17-31 | ChainInterceptors runs the right fold with the handler it is given |
| `GinInterceptor.FoldUnfold` | transport/http/gin/interceptor.go:19-23 | the fold calls the first interceptor with the fold of the rest as next |
| `GinInterceptor.ChainEmpty` | transport/http/gin/interceptor.go:25-29 | an empty chain is the handler itself |
| `GinInterceptor.ChainNop` | transport/http/gin/interceptor.go:12-14 | the chain [NopInterceptor] behaves as the handler |
| `GinInterceptor.ChainOutermost` | transport/http/gin/interceptor.go:19-29 | the first interceptor is outermost: it runs with the chain of the rest as its next |
| `GinInterceptor.ShortCircuit` | transport/http/gin/interceptor.go:19-23 | a first interceptor that ignores next decides the result, whatever the later interceptors and the handler are |
| `GinInterceptor.Recorders` | transport/http/gin/interceptor.go:19-29 | one recording interceptor per name |
| `GinInterceptor.RecordersAround` | transport/http/gin/interceptor.go:19-29 | recording interceptors enter in declaration order before the rest of the chain runs, and exit in reverse order after it |
| `GinInterceptor.TraceOfTwo` | transport/http/gin/interceptor.go:19-29 | with I1 and I2 the trace is I1 enter, I2 enter, handler, I2 exit, I1 exit |
| `GinInterceptor.StopHidesRest` | transport/http/gin/interceptor.go:19-23 | after a stopping interceptor no later interceptor and no handler appears in the trace |
| `GinMetadata.Lookup` | transport/http/gin/metadata.go:23-30 | Get returns the first value under the lower-cased key, and "" when that key is absent or its list is empty |
| `GinMetadata.SetEntry` | transport/http/gin/metadata.go:18-21 | Set: [val] under the lower-cased key; see SetThenGet, SetOnlyTouchesItsKey, Metadata.Set |
| `GinMetadata.SetThenGet` | transport/http/gin/metadata.go:18-30 | after Set(k, v), Get with any key equal to k ignoring case returns v |
| `GinMetadata.SetOnlyTouchesItsKey` | transport/http/gin/metadata.go:18-21 | Set stores exactly [val] under the lower-cased key, adds only that key, and leaves every other entry unchanged |
| `GinMetadata.JoinAll` | transport/http/gin/metadata.go:32-40 | Join over the inputs; see JoinValues, JoinKeys, JoinKeepsEveryValue, JoinTwo, JoinFirstValueWins, Join |
| `GinMetadata.JoinValues` | transport/http/gin/metadata.go:32-40 | for every key, Join's list is the concatenation of the inputs' lists in argument order |
| `GinMetadata.JoinKeys` | transport/http/gin/metadata.go:32-40 | Join's key set is the union of the inputs' key sets, with keys kept exactly as given |
| `GinMetadata.JoinKeepsEveryValue` | transport/http/gin/metadata.go:32-40 | append-only: each input's list sits whole and in place inside the joined list |
| `GinMetadata.JoinTwo` | transport/http/gin/metadata.go:32-40 | [a] and [b] under one key join to [a, b] |
| `GinMetadata.JoinFirstValueWins` | transport/http/gin/metadata.go:23-40 | a key Set in the first input reads back its value after the join |
| `GinMetadata.Metadata.constructor` | transport/http/gin/metadata.go:33 | an empty map |
| `GinMetadata.Metadata.Set` | transport/http/gin/metadata.go:18-21 | the new map is SetEntry of the old one |
| `GinMetadata.Metadata.Get` | transport/http/gin/metadata.go:23-30 | the first value under the lower-cased key, or "" when there is none |
| `GinMetadata.AppendInto` | transport/http/gin/metadata.go:35-37 | the inner loop appends every list of one input onto the output's list for the same key |
| `GinMetadata.Join` | transport/http/gin/metadata.go:32-40 | a fresh map equal to the left-to-right join of the inputs, which are not modified |
| `GinMetadata.EmptyPrefixKeepsDashKeys` | transport/http/gin/metadata.go:42-52 | with the prefix "" exactly the keys starting with "-" survive |
| `GinMetadata.FromHeader` | transport/http/gin/metadata.go:42-52 | what NewMetadata may return: exactly the lower-cased keys starting with lower(prefix) + "-", each holding the values of a header key that lower-cases to it; see NewMetadata, EmptyPrefixKeepsDashKeys, RequestMetadata |
| `GinMetadata.NewMetadata` | transport/http/gin/metadata.go:42-52 | the keys are exactly the lower-cased keys that start with lower(prefix) + "-", each holding an input's values unchanged |
| `GinCodec.Encode` | transport/http/gin/default_codec.go:15-42 | always status 200 and "application/json"; the error body exactly for errors, with the split code and message; jsonpb exactly for non-error proto messages; plain JSON otherwise |
| `GinCodec.CodeMessage` | transport/http/gin/default_codec.go:19-27 | the code and message split out of the error's description; see CodeHasNoColon, MessageColons, NoColon, SplitsFormatted, NotFoundExample, Encode |
| `GinCodec.CodeHasNoColon` | transport/http/gin/default_codec.go:21-24 | the code never holds a colon |
| `GinCodec.MessageColons` | transport/http/gin/default_codec.go:21-24 | with colons in the description, the message holds one colon fewer than the description |
| `GinCodec.NoColon` | transport/http/gin/default_codec.go:25-27 | without a colon the code is "" and the message is err.Error() untrimmed |
| `GinCodec.SplitsFormatted` | transport/http/gin/default_codec.go:21-24 | "code: message" splits back into the trimmed code and message |
| `GinCodec.NotFoundExample` | transport/http/gin/default_codec.go:21-24 | "NOT_FOUND: item missing" gives code "NOT_FOUND" and message "item missing" |
| `GinOption.Update` | transport/http/gin/option.go:13-41 | an option sets exactly its own field to its argument and leaves every other field unchanged |
| `GinOption.WithInterceptorReplaces` | transport/http/gin/option.go:31-35 | WithInterceptor sets the list to exactly the given chain, so the default NopInterceptor does not survive |
| `GinOption.Defaults` | transport/http/gin/handler.go:20-23 | NewHandler's starting options: the default codec and the chain [NopInterceptor]; see DefaultChainRunsHandler, NewHandler |
| `GinOption.ApplyAll` | transport/http/gin/handler.go:25-27 | the options applied in order; see LastWins, DefaultChainRunsHandler, NewHandler |
| `GinOption.LastWins` | transport/http/gin/handler.go:25-27 | the last option for a field wins; a field no option names keeps its value |
| `GinOption.DefaultChainRunsHandler` | transport/http/gin/handler.go:20-27 | without WithInterceptor the chain is [NopInterceptor], which runs the handler itself |
| `GinOption.Options.constructor` | transport/http/gin/handler.go:20-23 | options holding the given settings |
| `GinOption.Options.Apply` | transport/http/gin/handler.go:25-27 | running one option's closure changes the options as Update says |
| `DbEvent.FindToken` | db/event.go:63-67 | the first index from i of the keyword that is not the last token; none when there is no such index |
| `DbEvent.FindInsert` | db/event.go:75-79 | the first index from i of INSERT followed by INTO and one more token |
| `DbEvent.TableOf` | db/event.go:61-82 | the name is the query itself, a token, or a token without backticks |
| `DbEvent.Table` | db/event.go:61-82 | the name is the query itself or holds no space |
| `DbEvent.TableFrom` | db/event.go:62-67 | the token after the first non-final FROM wins, backticks kept |
| `DbEvent.TableUpdate` | db/event.go:69-73 | without a usable FROM, the token after the first non-final UPDATE, backticks removed |
| `DbEvent.TableInsert` | db/event.go:75-79 | without FROM or UPDATE, the token after the first INSERT INTO, backticks removed |
| `DbEvent.TableFallback` | db/event.go:81 | with none of the three, the query itself |
| `DbEvent.FromBeatsUpdate` | db/event.go:62-73 | FROM has priority over an UPDATE that comes earlier in the query |
| `DbEvent.TableUpdateStatement` | db/event.go:59 | UPDATE \`t\` SET a names t, backticks stripped |
| `DbEvent.TableInsertStatement` | db/event.go:60 | INSERT INTO \`t\` columns names t, backticks stripped |
| `DbEvent.TableDoubleSpace` | db/event.go:62-65 | two spaces after FROM make an empty token, and "" is returned as the table |
| `DbEvent.DbName` | db/event.go:84-97 | a name exactly when there is a '/' and a '?' after it; the name holds no '?' |
| `DbEvent.DbNameFramed` | db/event.go:84-97 | the data source is a '/'-free head, '/', the name, '?', and the rest |
| `DbEvent.DbNameOf` | db/event.go:84-97 | any '?'-free name framed by a '/'-free head and a '?' is read back |
| `DbEvent.NewEventReceiver` | db/event.go:14-16 | both arguments are dropped, so the threshold is 0 |
| `DbEvent.TruncDiv` | db/event.go:44 | Go's integer division, truncating toward zero for either sign |
| `DbEvent.Millis` | db/event.go:44 | the duration in whole milliseconds, truncated toward zero as Go's Duration division; see MillisTruncates, Timing, TimingOfNewReceiver |
| `DbEvent.Timing` | db/event.go:43-48 | a record exactly when the whole milliseconds exceed the threshold; then it is an info record for the event |
| `DbEvent.TimingKv` | db/event.go:51-56 | the same test as Timing; the record is info-level and names the event |
| `DbEvent.TimingOfNewReceiver` | db/event.go:14-16 | with the receiver Open builds, every event of at least 1ms is logged, whatever threshold was asked for |
| `DbEvent.MillisTruncates` | db/event.go:44 | -1ns counts as 0ms, -1ms as -1, and 1.999999ms as 1 |
| `DbEvent.TimingMonotone` | db/event.go:43-48 | a longer event is logged whenever a shorter one is |
| `DbEvent.EventErr` | db/event.go:30-33 | the error comes back unchanged, with an error-level record for the event |
| `DbEvent.EventErrKv` | db/event.go:37-40 | the error comes back unchanged, with an error-level record for the event |
| `DbOpen.Defaulted` | db/db.go:19-37 | port 0 becomes 3306, an empty host "localhost", an empty driver "mysql", and an empty data source user:password@tcp(host:port)/dbname?charset=utf8mb4&parseTime=true&loc=Local built from the defaulted host and port; set values are kept; every other field is untouched |
| `DbOpen.DefaultedIdempotent` | db/db.go:19-37 | defaulting already defaulted options changes nothing |
| `DbOpen.DataSourceFor` | db/db.go:28-34 | the generated data source; see DataSourceRoundTrip, DefaultedNamesDatabase, Defaulted |
| `DbOpen.DataSourceRoundTrip` | db/db.go:28-34 | dbName of a generated data source is the database name, when user, password and host hold no '/' and the name holds no '?' |
| `DbOpen.DefaultedNamesDatabase` | db/db.go:27-38 | with no data source given, the event receiver is named after DBName |
| `DbOpen.Opened` | db/db.go:38-45 | a connection exactly when dbName succeeds and the driver does not fail; it carries the driver, the data source and a receiver with threshold 0 |
| `DbOpen.Options.constructor` | db/option.go:3-13 | options holding the given configuration |
| `DbOpen.Open` | db/db.go:18-46 | the options are updated in place to Defaulted of the old ones (3306, "localhost", "mysql", the generated data source), and the result is what Opened gives for them |
| `DbOpen.FillDefaults` | db/db.go:19-38 | port, host, data source and driver are defaulted in place to 3306, "localhost", the generated data source and "mysql"; the result is exactly Defaulted of the old options |
| `LogOption.Applied` | log/option.go:12-33 | each empty field gets its own default: DirPath "./log/", MaxFileSize "500M", RotateDuration "1h", Level "info", BackTime "7d"; set fields are kept; BackCount is untouched |
| `LogOption.AppliedIdempotent` | log/option.go:12-33 | applying twice is applying once |
| `LogOption.AppliedZero` | log/option.go:13-31 | the zero option becomes "./log/", "500M", "1h", "info", "7d" |
| `LogOption.Option.constructor` | log/option.go:3-10 | an option holding the given configuration |
| `LogOption.Option.Apply` | log/option.go:12-33 | the option is updated in place to Applied of its old value |
| `LogRotate.Defaults` | log/rotate.go:38-50 | every field is non-zero afterwards, and a non-zero field is kept |
| `LogRotate.DefaultsIdempotent` | log/rotate.go:38-50 | applying the defaults twice changes nothing more |
| `LogRotate.SetOption` | log/rotate.go:54-70 | WithBackTime, WithRotateTime and WithRotateSize: each closure sets its own field; see Options.Set, ConfiguredLastWins |
| `LogRotate.SetAll` | log/rotate.go:73-77 | the option closures applied in order over the zero Options; see Configured, ConfiguredLastWins, NewRotateFile |
| `LogRotate.Configured` | log/rotate.go:73-78 | the options applied in order, then the defaults; see ConfiguredNone, ConfiguredLastWins, NewRotateFile |
| `LogRotate.ConfiguredNone` | log/rotate.go:72-78 | with no option: daily rotation, one gigabyte, one week of backups |
| `LogRotate.ConfiguredLastWins` | log/rotate.go:72-78 | the last option wins its field, an explicit 0 still gets the default, and the other fields are unaffected |
| `LogRotate.Options.constructor` | log/rotate.go:73 | the zero Options |
| `LogRotate.Options.Set` | log/rotate.go:54-70 | one option's closure sets its own field |
| `LogRotate.Options.Apply` | log/rotate.go:38-50 | the fields are updated in place to Defaults of their old values |
| `LogRotate.IsSameDay` | log/rotate.go:218-220 | isSameDay: the two instants format to the same "2006-01-02" date; see Keeps, RotationDecision |
| `LogRotate.GenFileName` | log/rotate.go:201-203 | genFileName: the current name, the date and the time; see CurrentSortsBeforeBackups, FilterBackFiles |
| `LogRotate.CurrentSortsBeforeBackups` | log/rotate.go:201-203 | every backup name sorts after the current file's name |
| `LogRotate.BackFiles` | log/rotate.go:188-199 | the swept files are never more than the listed ones |
| `LogRotate.BackFilesMembers` | log/rotate.go:192-196 | a file is swept exactly when it is listed, is not the current file and sorts before the cutoff |
| `LogRotate.CurrentNeverSwept` | log/rotate.go:193 | the current file is never swept |
| `LogRotate.FilterBackFiles` | log/rotate.go:188-199 | the loop keeps, in order, the files BackFiles selects, with cutoff genFileName(curFn, now - backTime) |
| `LogRotate.FileSize` | log/rotate.go:222-229 | fileSize: the size, or MinInt64 when the file cannot be examined; see UnreadableSizeKeeps |
| `LogRotate.Keeps` | log/rotate.go:115-117 | write_nolock's no-rotation test: elapsed < rotateTime, the same day, and rotateSize > size; see RotationDecision, UnreadableSizeKeeps, FirstWriteRotatesDueFile |
| `LogRotate.Create` | log/rotate.go:130-144 | success exactly when the open succeeds; then the handle is replaced and the rotation clock restarts; on failure nothing changes |
| `LogRotate.Rotate` | log/rotate.go:119-127 | the clock restart, rename and createFile; see RotationDecision |
| `LogRotate.PrepareAsWritten` | log/rotate.go:108-128 | write_nolock as written; see ExistingFileWriteFails and the Findings row |
| `LogRotate.Prepare` | log/rotate.go:108-128 | write_nolock corrected: when no rotation is due and no handle is open, the file is opened for appending; a due rotation happens as written; see RotationDecision, MissingFileCreated, PreparedWriteSucceeds, PrepareAgreesWithHandle, PrepareDiffersOnlyWhenUnopened, FirstWriteRotatesDueFile, RotateFile.WriteNoLock |
| `LogRotate.RotationDecision` | log/rotate.go:113-127 | with an existing file: when elapsed < rotateTime, same day and rotateSize > size, nothing happens if a handle is open and the file is opened as createFile does if none is; otherwise, with or without a handle, the clock restarts, the file is renamed to its backup name and a new handle opened with no error; a failed rename gives RenameError with no rename and the old handle; a failed open gives OpenError after the rename, keeping the old handle |
| `LogRotate.UnreadableSizeKeeps` | log/rotate.go:117 | an unreadable size (MinInt64) never triggers a rotation by itself |
| `LogRotate.MissingFileCreated` | log/rotate.go:109-111 | a missing file is created, never renamed |
| `LogRotate.ExistingFileWriteFails` | log/rotate.go:99-119 | as written, the first write to an existing log file writes nothing and fails with os.ErrInvalid |
| `LogRotate.PreparedWriteSucceeds` | log/rotate.go:99-144 | corrected, a write that gets past write_nolock always has a handle, never gets ErrInvalid, and writes all bytes |
| `LogRotate.PrepareAgreesWithHandle` | log/rotate.go:108-128 | the correction changes nothing once a handle is open |
| `LogRotate.PrepareDiffersOnlyWhenUnopened` | log/rotate.go:108-128 | wherever write_nolock as written ends with an error or a handle, the correction gives the same step; where they differ, as written kept the file unopened with no error and the correction opens it without a rename |
| `LogRotate.FirstWriteRotatesDueFile` | log/rotate.go:115-127 | a first write, with no handle, over an existing file due for rotation renames it to genFileName(curFn, now) and opens a fresh handle, as written and corrected alike |
| `LogRotate.RotateFile.constructor` | log/rotate.go:80-86 | a file in the given state |
| `LogRotate.RotateFile.CreateFile` | log/rotate.go:130-144 | the fields and the error are those Create gives |
| `LogRotate.RotateFile.WriteNoLock` | log/rotate.go:108-128 | the fields, the error and the rename are those of the corrected write_nolock |
| `LogRotate.Written` | log/rotate.go:99-106 | write: write_nolock's error, else the handle write, ErrInvalid without a handle; see ExistingFileWriteFails, PreparedWriteSucceeds, RotateFile.Write |
| `LogRotate.RotateFile.Write` | log/rotate.go:92-106 | the state and the result are those of the corrected write_nolock followed by the handle write; never ErrInvalid |
| `LogRotate.Fresh` | log/rotate.go:72-86 | the RotateFile NewRotateFile builds: the configured settings, no handle, and the rotation clock started at the given instant; see NewRotateFile, ExistingFileWriteFails, SubLoggerRotation |
| `LogRotate.NewRotateFile` | log/rotate.go:72-90 | a fresh file whose settings are the options in order then the defaults, with no handle and the clock started now |
| `LogZap.FileLevels` | log/zap.go:17-25 | a result exactly for the four known levels; it starts with the level and is a suffix of Levels |
| `LogZap.FileLevelsFrom` | log/zap.go:18-22 | the search loop from position i finds the level exactly when it is in Levels[i..] |
| `LogZap.FileLevelsOf` | log/zap.go:17-22 | the k-th level selects Levels[k..]; so debug gives 4 files, info 3, warn 2 and error 1 |
| `LogZap.FatalUnsupported` | log/zap.go:24 | "fatal" makes fileLevels panic |
| `LogZap.ZapLevel` | log/zap.go:27-36 | the four names map to debug -1, info 0, warn 1, error 2; any other name misses the map and gets 0 |
| `LogZap.ParseDuration` | log/zap.go:69-86 | the empty text is zero, and a non-empty text without 'd' gets exactly time.ParseDuration's answer; see DaysRewritten, DaysAreHours |
| `LogZap.DaysRewritten` | log/zap.go:74-85 | a text with a 'd' parses iff the text with every 'd' turned into 'h' does (which leaves no 'd' and every other character in place), and then to 24 times its value |
| `LogZap.MixedUnitsScaledWhole` | log/zap.go:74-85 | "1d12h" is read as "1h12h" times 24, so 312 hours, when time.ParseDuration reads "1h12h" as 13 hours |
| `LogZap.DaysAreHours` | log/zap.go:74-85 | "nd" parses iff "nh" does, and then to 24 times its value |
| `LogZap.SevenDays` | log/zap.go:74-85 | "7d" is 168 hours |
| `LogZap.SubLoggerFor` | log/zap.go:56-64 | one level's sub-logger: the file DirPath + level + ".log", zapLevel(level), and a fresh rotate file with the two parsed durations whose clock starts at the given instant; see SubLoggerRotation, SubLoggers |
| `LogZap.SubLoggers` | log/zap.go:55-65 | one sub-logger per level, in order, writing to DirPath + level + ".log", each with its rotation clock started at the instant its own NewRotateFile read |
| `LogZap.SubLoggerRotation` | log/zap.go:58-61 | each sub-logger's file rotates on the parsed duration and keeps the parsed back time (defaults for zero), with 1G size and no handle |
| `LogZap.Recorded` | log/zap.go:88-134 | the files that record an entry are at most the sub-loggers |
| `LogZap.SubLoggerLevels` | log/zap.go:55-62 | the i-th sub-logger for level k has zap level k + i - 1 |
| `LogZap.ErrorRecordedEverywhere` | log/zap.go:124-134 | an error entry is written to every file of the logger |
| `LogZap.DebugRecordedOnlyInDebugFile` | log/zap.go:88-98 | a debug entry reaches only debug.log, and only when debug is the configured level |
| `LogZap.ZapLogger.constructor` | log/zap.go:54 | no sub-loggers |
| `LogZap.ZapLogger.Emit` | log/zap.go:88-134 | one call per sub-logger, in order, with the entry's level and message |
| `LogZap.Built` | log/zap.go:42-67 | NewLogger's sub-loggers for an applied option, None for its panics; see BuildLogger, NewLogger, SubLoggers, ErrorRecordedEverywhere, DebugRecordedOnlyInDebugFile |
| `LogZap.BuiltWith` | log/zap.go:55-65 | Built once the levels are known: both durations must parse; see AddSubLoggers, BuildLogger |
| `LogZap.NewLogger` | log/zap.go:42-67 | the option is defaulted in place; the logger exists exactly when the level is known and both durations parse, and then holds exactly the sub-loggers Built gives |
| `LogZap.BuildLogger` | log/zap.go:53-66 | from the defaulted option: a logger exactly when the level is known and both durations parse, holding exactly the sub-loggers Built gives |
| `LogZap.AddSubLoggers` | log/zap.go:55-65 | the loop succeeds iff both durations parse, and then appends one sub-logger per level in order |

## Left out

- Reflection, `reflect.Method.Func.Call`, the gin engine, its router and route matching, `ClientIP`, and the JSON/jsonpb encoders are not modelled. Types are descriptors, a method's call is a stored function, routes are a list of (method, path, handler), and the client IP is a parameter.
- Route-conflict panics of gin's router are not modelled: registering the same path twice is just two list entries.
- `ginInterceptors` builds a chain and discards it, so it has no effect and is not modelled.
- `MetadataFromContext` and `NewContextFromMetadata` are not modelled: they only store and fetch a value in a `context.Context`. The context is modelled as the metadata itself.
- `Handler.Option` is not modelled; it is a plain getter.
- `decodeFileDesc`, `decompress`, gzip and protobuf unmarshalling are not modelled. Setup reads an already decoded descriptor, or its decoding error.
- JoinPath: `path.Join`'s cleaning is not modelled. Only the joint where prefix and pattern meet is reduced to one '/'. "." and ".." elements, inner "//" runs, and a trailing '/' are all kept. For example, `JoinPath("/Svc/", "")` gives "/Svc/" where Go gives "/Svc".
- Admit: slice, map, channel and array types are not represented. Go's `Elem` accepts them as a method's first result, so a method returning `([]*Item, error)` is registered with response type `*Item`. The `Type` datatype has only pointers and named types, and a named first result is modelled as the panic of `Elem`.
- Case mapping, `strings.Title`, `TrimSpace` and rune decoding cover ASCII only; Unicode tables are not modelled.
- `dbr.Open`, the MySQL dialect, `NewSession`, the connection pool and everything written to the log are not modelled. A driver failure is an input, and a log line is a record value.
- `time.Duration.String` formatting in Timing is not modelled.
- The mutex, the one-minute ticker goroutine `loop`, `getAllFiles` (directory listing), `os.Remove`, and the panic in `fileExist` on a stat error are not modelled. The file system's answers are inputs, and the sweep is modelled from the list of files on.
- Time arithmetic is not modelled. Instants and durations are unbounded integers of nanoseconds, so `time.Sub` saturation and int64 overflow are absent; this includes the overflow of `duration * 24` in parseDuration.
- `createFile` reads `time.Now()` again; the model uses the same instant as the rest of the write.
- Short writes and write errors of `*os.File.Write` are not modelled. A write through an open handle writes every byte.
- `os.Stat`, `os.Mkdir`, `dirOpen`, the zap encoder configuration and caller skipping in NewLogger are not modelled.
- `fmt` formatting of the `...f` logging methods is not modelled: the formatted message is an input of Emit.

## Findings

| source | as written | input that shows it | evidently intended | confidence | as-written member | corrected member |
|---|---|---|---|---|---|---|
| log/rotate.go:99-119 | NewRotateFile never opens the file. When the current file already exists and no rotation is due, write_nolock returns nil with outFh still nil, and write then calls Write on a nil *os.File, which returns os.ErrInvalid | a rotate file created over an existing, empty log file, written to within the rotation interval on the same day | when no rotation is due and no handle is open, the existing current file is opened for appending, so the write succeeds; a due rotation still renames it and opens a fresh file | not executed | `LogRotate.ExistingFileWriteFails` | `LogRotate.PreparedWriteSucceeds` |

/** The gateway's Handler: it registers one route per (method, rule), rewrites request paths
    when no prefix is set, and for each request builds the metadata, decodes, runs the
    interceptor chain around the method and encodes exactly one answer. */
module GinHandler {
  import opened Wrappers
  import opened Seqs
  import opened Strings
  import opened GinValues
  import opened GinInterceptor
  import opened GinMetadata
  import opened GinCodec
  import opened GinNaming
  import opened GinHttpRuler
  import opened GinService
  import opened GinOption

  /** One call of h.Handle(verb, path, ginHandler(target)). */
  datatype Route = Route(verb: string, path: string, target: ServiceMethod)

  /** The prefix routes hang under: "/" + service name + "/" when none was configured. */
  function PrefixFor(prefix: string, serviceName: string): (r: string)
    ensures prefix != "" ==> r == prefix
    ensures prefix == "" ==> r == "/" + serviceName + "/"
  {
    if prefix == "" then "/" + serviceName + "/" else prefix
  }

  /** What newProtoExtend leaves behind: the rule map and the error, if any. */
  function ProtoState(protoName: string, decoded: Result<FileDesc, string>): SetupState
  {
    if protoName == "" then SetupState(map[], None)
    else if decoded.Failure? then SetupState(map[], Some(decoded.error))
    else Setup(Flatten(decoded.value.services))
  }

  /** `f` applied to every element, in order. */
  function MapSeq<A, B>(s: seq<A>, f: A -> B): (r: seq<B>)
    ensures |r| == |s|
    ensures forall i :: 0 <= i < |s| ==> r[i] == f(s[i])
  {
    seq(|s|, i requires 0 <= i < |s| => f(s[i]))
  }

  /** The routes of one method: one per rule, in rule order, each under the joined path. */
  function RuleRoutes(prefix: string, rules: seq<Rule>, sm: ServiceMethod): (r: seq<Route>)
    ensures |r| == |rules|
    ensures forall i :: 0 <= i < |rules| ==> r[i].verb == rules[i].verb && r[i].target == sm
  {
    MapSeq(rules, (rule: Rule) => Route(rule.verb, JoinPath(prefix, rule.pattern), sm))
  }

  /** Where a method's rules come from: methodHttpRules, None standing for its panic. */
  type RuleSource = string -> Option<seq<Rule>>

  /** methodHttpRules over the map newProtoExtend filled. */
  function RulesOfMap(methodMap: map<string, HttpRule>): RuleSource
  {
    k => RulesFor(methodMap, k)
  }

  /** The routes RegisterService adds when it visits the methods in `order`; None stands for
      the panic of methodHttpRules. */
  function RoutesOf(prefix: string, rulesOf: RuleSource, table: map<string, ServiceMethod>,
                    order: seq<string>): Option<seq<Route>>
    requires forall i :: 0 <= i < |order| ==> order[i] in table
  {
    if |order| == 0 then Some([])
    else
      var init := RoutesOf(prefix, rulesOf, table, order[..|order| - 1]);
      var k := order[|order| - 1];
      var rules := rulesOf(k);
      if init.None? || rules.None? then None
      else Some(init.value + RuleRoutes(prefix, rules.value, table[k]))
  }

  /** The number of routes: the sum over the methods of the number of their rules. */
  function RouteCount(rulesOf: RuleSource, order: seq<string>): nat
  {
    if |order| == 0 then 0
    else
      var rules := rulesOf(order[|order| - 1]);
      RouteCount(rulesOf, order[..|order| - 1]) + (if rules.Some? then |rules.value| else 0)
  }

  /** Registration succeeds exactly when every visited method has rules. */
  lemma {:induction false} RoutesOfDefined(prefix: string, rulesOf: RuleSource,
                                           table: map<string, ServiceMethod>, order: seq<string>)
    requires forall i :: 0 <= i < |order| ==> order[i] in table
    ensures RoutesOf(prefix, rulesOf, table, order).Some? <==>
              forall i :: 0 <= i < |order| ==> rulesOf(order[i]).Some?
  {
    if |order| > 0 {
      var init := order[..|order| - 1];
      RoutesOfDefined(prefix, rulesOf, table, init);
      if RoutesOf(prefix, rulesOf, table, order).Some? {
        forall i | 0 <= i < |order|
          ensures rulesOf(order[i]).Some?
        {
          if i < |init| {
            assert order[i] == init[i];
          }
        }
      } else if RoutesOf(prefix, rulesOf, table, init).None? {
        var i :| 0 <= i < |init| && rulesOf(init[i]).None?;
        assert order[i] == init[i];
      }
    }
  }

  /** A successful registration adds exactly one route per (method, rule) pair. */
  lemma {:induction false} RoutesOfLength(prefix: string, rulesOf: RuleSource,
                                          table: map<string, ServiceMethod>, order: seq<string>)
    requires forall i :: 0 <= i < |order| ==> order[i] in table
    requires RoutesOf(prefix, rulesOf, table, order).Some?
    ensures |RoutesOf(prefix, rulesOf, table, order).value| == RouteCount(rulesOf, order)
  {
    if |order| > 0 {
      RoutesOfLength(prefix, rulesOf, table, order[..|order| - 1]);
    }
  }

  /** One more visited method appends its routes. */
  lemma RoutesOfSnoc(prefix: string, rulesOf: RuleSource, table: map<string, ServiceMethod>,
                     order: seq<string>, k: string, rules: seq<Rule>)
    requires forall i :: 0 <= i < |order| ==> order[i] in table
    requires k in table && RoutesOf(prefix, rulesOf, table, order).Some? && rulesOf(k) == Some(rules)
    ensures forall i :: 0 <= i < |order + [k]| ==> (order + [k])[i] in table
    ensures RoutesOf(prefix, rulesOf, table, order + [k])
              == Some(RoutesOf(prefix, rulesOf, table, order).value + RuleRoutes(prefix, rules, table[k]))
  {
    assert (order + [k])[..|order|] == order;
  }

  /** Every rule of every visited method is registered, under the prefix joined with the rule's
      pattern and with that method as its target. */
  lemma {:induction false} RoutesOfCoverRules(prefix: string, rulesOf: RuleSource,
                                              table: map<string, ServiceMethod>, order: seq<string>,
                                              i: int, rules: seq<Rule>, j: int)
    requires forall n :: 0 <= n < |order| ==> order[n] in table
    requires RoutesOf(prefix, rulesOf, table, order).Some?
    requires 0 <= i < |order| && rulesOf(order[i]) == Some(rules) && 0 <= j < |rules|
    ensures Route(rules[j].verb, JoinPath(prefix, rules[j].pattern), table[order[i]])
              in RoutesOf(prefix, rulesOf, table, order).value
  {
    var init := order[..|order| - 1];
    var k := order[|order| - 1];
    var route := Route(rules[j].verb, JoinPath(prefix, rules[j].pattern), table[order[i]]);
    var before := RoutesOf(prefix, rulesOf, table, init);
    var last := rulesOf(k);
    DropLastAppend(order);
    RoutesOfSnoc(prefix, rulesOf, table, init, k, last.value);
    var added := RuleRoutes(prefix, last.value, table[k]);
    if i < |init| {
      assert order[i] == init[i];
      RoutesOfCoverRules(prefix, rulesOf, table, init, i, rules, j);
      InLeft(before.value, added, route);
    } else {
      assert order[i] == k;
      RuleRoutesAt(prefix, rules, table[k], j);
      InRight(before.value, added, route);
    }
  }

  /** The j-th route of a method is its j-th rule's. */
  lemma RuleRoutesAt(prefix: string, rules: seq<Rule>, sm: ServiceMethod, j: int)
    requires 0 <= j < |rules|
    ensures RuleRoutes(prefix, rules, sm)[j] == Route(rules[j].verb, JoinPath(prefix, rules[j].pattern), sm)
  {
  }

  /** One more rule registered: the next route of RuleRoutes appended. */
  lemma RuleRoutesStep(start: seq<Route>, prefix: string, rules: seq<Rule>, sm: ServiceMethod, j: int)
    requires 0 <= j < |rules|
    ensures start + RuleRoutes(prefix, rules, sm)[..j + 1] ==
              (start + RuleRoutes(prefix, rules, sm)[..j]) + [Route(rules[j].verb, JoinPath(prefix, rules[j].pattern), sm)]
  {
    var all := RuleRoutes(prefix, rules, sm);
    RuleRoutesAt(prefix, rules, sm, j);
    TakeSnoc(all, j);
    AppendAssoc(start, all[..j], [all[j]]);
  }

  /** The service "Svc" with the one method GetUser and no proto file gets exactly one route:
      POST /Svc/get_user. */
  lemma RegisterGetUser(sm: ServiceMethod)
    ensures RoutesOf(PrefixFor("", "Svc"), RulesOfMap(map[]), map["GetUser" := sm], ["GetUser"])
              == Some([Route("POST", "/Svc/get_user", sm)])
  {
    var rules := [Rule("POST", "get_user", "*")];
    UnderLineGetUser();
    RulesForAbsent(map[], "GetUser");
    assert RulesOfMap(map[])("GetUser") == Some(rules);
    assert PrefixFor("", "Svc") == "/Svc/";
    RoutesOfOne("/Svc/", RulesOfMap(map[]), map["GetUser" := sm], "GetUser", rules);
    GetUserRoute(sm);
  }

  /** A single visited method registers exactly its own routes. */
  lemma RoutesOfOne(prefix: string, rulesOf: RuleSource, table: map<string, ServiceMethod>,
                    k: string, rules: seq<Rule>)
    requires k in table && rulesOf(k) == Some(rules)
    ensures RoutesOf(prefix, rulesOf, table, [k]) == Some(RuleRoutes(prefix, rules, table[k]))
  {
    assert [k][..0] == [];
    var none: seq<Route> := [];
    assert none + RuleRoutes(prefix, rules, table[k]) == RuleRoutes(prefix, rules, table[k]);
  }

  /** The one rule POST get_user, under the default prefix of Svc. */
  lemma GetUserRoute(sm: ServiceMethod)
    ensures RuleRoutes("/Svc/", [Rule("POST", "get_user", "*")], sm) == [Route("POST", "/Svc/get_user", sm)]
  {
    var rules := [Rule("POST", "get_user", "*")];
    JoinDefaultPrefix("Svc", "get_user");
    assert "/" + "Svc" + "/" == "/Svc/";
    assert "/" + "Svc" + "/" + "get_user" == "/Svc/get_user";
    RuleRoutesAt("/Svc/", rules, sm, 0);
    var r := RuleRoutes("/Svc/", rules, sm);
    assert |r| == 1 && r == [r[0]];
  }

  /** Whether `order` lists every key of `keys` exactly once. */
  predicate IsOrder(order: seq<string>, keys: set<string>)
  {
    (forall i :: 0 <= i < |order| ==> order[i] in keys) &&
    (forall k :: k in keys ==> k in order) &&
    (forall i, j :: 0 <= i < j < |order| ==> order[i] != order[j])
  }

  /** Part way through a map range: `order` lists, once each, the keys no longer in `todo`. */
  predicate Visited(order: seq<string>, todo: set<string>, keys: set<string>)
  {
    (forall i :: 0 <= i < |order| ==> order[i] in keys && order[i] !in todo) &&
    (forall k :: k in keys && k !in todo ==> k in order) &&
    (forall i, j :: 0 <= i < j < |order| ==> order[i] != order[j])
  }

  /** Visiting one more key keeps the range's bookkeeping. */
  lemma VisitedStep(order: seq<string>, todo: set<string>, keys: set<string>, k: string)
    requires todo <= keys && Visited(order, todo, keys) && k in todo
    ensures Visited(order + [k], todo - {k}, keys)
  {
  }

  /** ServeHTTP's rewrite: None for the panic on a path without '/'; the path unchanged when a
      prefix is configured; otherwise "/" + service name + the path from its last '/'. */
  function RewritePath(prefix: string, serviceName: string, path: string): (r: Option<string>)
    ensures r.None? <==> '/' !in path
    ensures r.Some? && prefix != "" ==> r.value == path
  {
    var idx := LastIndexOf(path, '/');
    if idx < 0 then None
    else if prefix == "" then Some("/" + serviceName + path[idx..])
    else Some(path)
  }

  /** Without a prefix, the rewritten path is the service's default route for the path's last
      segment. */
  lemma RewriteKeepsMethodName(serviceName: string, path: string)
    requires '/' in path
    ensures RewritePath("", serviceName, path) == Some("/" + serviceName + "/" + GetMethodName(path))
  {
    var idx := LastIndexOf(path, '/');
    var rest := path[idx + 1..];
    assert path[idx..] == "/" + rest;
    assert "/" + serviceName + ("/" + rest) == "/" + serviceName + "/" + rest;
  }

  /** A request for ".../get_user" reaches the default route "/Svc/get_user". */
  lemma RewriteReachesDefaultRoute(serviceName: string, dir: string, name: string)
    requires '/' !in name
    ensures RewritePath("", serviceName, dir + "/" + name) == Some("/" + serviceName + "/" + name)
  {
    var path := dir + "/" + name;
    assert path[|dir|] == '/';
    assert path[|dir| + 1..] == name;
    LastIndexOfAt(path, '/', |dir|);
    assert path[|dir|..] == "/" + name;
    assert "/" + serviceName + ("/" + name) == "/" + serviceName + "/" + name;
  }

  /** Without a prefix every rewritten path has exactly two '/', so a route whose path has more
      (an annotated "/v1/users/:id", say) is never reached. */
  lemma RewriteMissesNestedRoutes(serviceName: string, path: string, route: string)
    requires '/' !in serviceName && Count(route, '/') > 2
    ensures RewritePath("", serviceName, path) != Some(route)
  {
    if '/' in path {
      RewriteKeepsMethodName(serviceName, path);
      var m := GetMethodName(path);
      CountZero(serviceName, '/');
      CountZero(m, '/');
      CountAppend("/", serviceName, '/');
      CountAppend("/" + serviceName, "/", '/');
      CountAppend("/" + serviceName + "/", m, '/');
      assert Count("/", '/') == 1;
    }
  }

  /** The map ginParams builds: the params Set one after another. */
  function ParamsMap(params: seq<(string, string)>): Entries
  {
    if |params| == 0 then map[]
    else
      var p := params[|params| - 1];
      SetEntry(ParamsMap(params[..|params| - 1]), p.0, p.1)
  }

  /** Every key is stored lower-cased. */
  lemma {:induction false} ParamsKeysLower(params: seq<(string, string)>)
    ensures forall k :: k in ParamsMap(params) ==> ToLower(k) == k
  {
    if |params| > 0 {
      ParamsKeysLower(params[..|params| - 1]);
      ToLowerIdempotent(params[|params| - 1].0);
    }
  }

  /** A key no param has (ignoring case) gives "". */
  lemma {:induction false} ParamsLookupMissing(params: seq<(string, string)>, key: string)
    requires forall i :: 0 <= i < |params| ==> ToLower(params[i].0) != ToLower(key)
    ensures Lookup(ParamsMap(params), key) == ""
  {
    if |params| > 0 {
      var init := params[..|params| - 1];
      assert forall i :: 0 <= i < |init| ==> init[i] == params[i];
      ParamsLookupMissing(init, key);
    }
  }

  /** The last param with a key (ignoring case) is what Get returns for it. */
  lemma {:induction false} ParamsLastWins(params: seq<(string, string)>, key: string, i: int)
    requires 0 <= i < |params| && ToLower(params[i].0) == ToLower(key)
    requires forall j :: i < j < |params| ==> ToLower(params[j].0) != ToLower(key)
    ensures Lookup(ParamsMap(params), key) == params[i].1
  {
    var init := params[..|params| - 1];
    var p := params[|params| - 1];
    if i == |params| - 1 {
      SetThenGet(ParamsMap(init), p.0, key, p.1);
    } else {
      assert forall j :: i < j < |init| ==> init[j] == params[j];
      ParamsLastWins(init, key, i);
      SetOnlyTouchesItsKey(ParamsMap(init), p.0, p.1);
    }
  }

  /** doHandle: a decode error answers at once, without running the chain or the method;
      otherwise the chain runs around the method's call. */
  function DoHandle(chain: Chain, sm: ServiceMethod, ctx: Context, decoded: Result<Value, Error>): Reply
  {
    match decoded
    case Failure(e) => Reply(Nil, Some(e))
    case Success(v) => ChainInterceptors(chain)(ctx, v, (c, q) => Call(sm, c, q))
  }

  /** Codec.Encode, called once: with the error when there is one, otherwise with the reply. */
  function Respond(codec: Codec, reply: Reply): Response
  {
    var v := if reply.err.Some? then ErrorValue(reply.err.value) else reply.value;
    match codec
    case DefaultCodec => Encode(v)
    case CustomCodec(encode) => encode(v)
  }

  /** A decode error never reaches the chain or the method: the answer is the same whatever
      they are, and the default codec writes the error's code and message. */
  lemma DecodeErrorShortCircuits(chain: Chain, other: Chain, sm: ServiceMethod, sm': ServiceMethod,
                                 ctx: Context, e: Error)
    ensures DoHandle(chain, sm, ctx, Failure(e)) == DoHandle(other, sm', ctx, Failure(e))
    ensures Respond(DefaultCodec, DoHandle(chain, sm, ctx, Failure(e))).body
              == ErrorBody(CodeMessage(e).0, CodeMessage(e).1)
  {
  }

  /** An error wins over the reply value: the codec sees only the error. */
  lemma ErrorIsEncoded(codec: Codec, v: Value, e: Error)
    ensures Respond(codec, Reply(v, Some(e))) == Respond(codec, Reply(Nil, Some(e)))
    ensures Respond(DefaultCodec, Reply(v, Some(e))).body.ErrorBody?
  {
  }

  /** With the default chain the answer is the method's own reply. */
  lemma DefaultChainCallsMethod(sm: ServiceMethod, ctx: Context, v: Value)
    ensures DoHandle([Nop()], sm, ctx, Success(v)) == Call(sm, ctx, v)
  {
    ChainNop(ctx, v, (c, q) => Call(sm, c, q));
  }

  /** The map after ginHandler's three Set calls on `e`. */
  function Stamped(e: Entries, t: string, name: string, ip: string): Entries
  {
    SetEntry(SetEntry(SetEntry(e, "request-time", t), "method-name", name), "client-ip", ip)
  }

  /** The three Set calls store one value each under their keys and leave every other entry as
      it was. */
  lemma StampedEntries(e: Entries, t: string, name: string, ip: string)
    ensures Stamped(e, t, name, ip).Keys == e.Keys + {"request-time", "method-name", "client-ip"}
    ensures Stamped(e, t, name, ip)["request-time"] == [t]
    ensures Stamped(e, t, name, ip)["method-name"] == [name]
    ensures Stamped(e, t, name, ip)["client-ip"] == [ip]
    ensures forall k :: k in e && k != "request-time" && k != "method-name" && k != "client-ip" ==>
              Stamped(e, t, name, ip)[k] == e[k]
  {
    assert ToLower("request-time") == "request-time";
    assert ToLower("method-name") == "method-name";
    assert ToLower("client-ip") == "client-ip";
  }

  /** Under Join(md, query, params), a key's list is the stamped header's list, then the query's,
      then the params': Get therefore prefers the header, then the query, then the path. */
  lemma JoinedValues(first: Entries, query: Entries, params: Entries, key: string)
    ensures ValuesOf(JoinAll([first, query, params]), key)
         == ValuesOf(first, key) + ValuesOf(query, key) + ValuesOf(params, key)
  {
    var all := [first, query, params];
    JoinValues(all, key);
    var two, one: seq<Entries> := [query, params], [params];
    assert all[1..] == two && two[1..] == one && one[1..] == [];
    assert ValuesAcross(one, key) == ValuesOf(params, key) + ValuesAcross([], key);
    assert ValuesAcross(two, key) == ValuesOf(query, key) + ValuesAcross(one, key);
    assert ValuesAcross(all, key) == ValuesOf(first, key) + ValuesAcross(two, key);
  }

  /** A query value beats a path parameter with the same key, provided the header did not
      already carry that key. */
  lemma QueryBeforeParams(first: Entries, query: Entries, params: seq<(string, string)>, key: string)
    requires ToLower(key) == key && key !in first && key in query && |query[key]| > 0
    ensures Lookup(JoinAll([first, query, ParamsMap(params)]), key) == query[key][0]
  {
    JoinedValues(first, query, ParamsMap(params), key);
    assert ValuesOf(first, key) == [];
  }

  /** With neither the header nor the query carrying a key, Get reads the path parameter. */
  lemma ParamsWhenAlone(first: Entries, query: Entries, params: seq<(string, string)>, key: string)
    requires ToLower(key) !in first && ToLower(key) !in query
    ensures Lookup(JoinAll([first, query, ParamsMap(params)]), key) == Lookup(ParamsMap(params), key)
  {
    JoinedValues(first, query, ParamsMap(params), ToLower(key));
    assert ValuesOf(first, ToLower(key)) == [] && ValuesOf(query, ToLower(key)) == [];
  }

  /** The synthetic keys are set in the first map of the join, so Get returns their values
      whatever the query and the path params hold; the query's and the params' keys all survive. */
  lemma SyntheticKeysWin(first: Entries, query: Entries, params: Entries, t: string, name: string, ip: string)
    requires "request-time" in first && first["request-time"] == [t]
    requires "method-name" in first && first["method-name"] == [name]
    requires "client-ip" in first && first["client-ip"] == [ip]
    ensures Lookup(JoinAll([first, query, params]), "request-time") == t
    ensures Lookup(JoinAll([first, query, params]), "method-name") == name
    ensures Lookup(JoinAll([first, query, params]), "client-ip") == ip
    ensures forall k :: k in query ==> k in JoinAll([first, query, params])
    ensures forall k :: k in params ==> k in JoinAll([first, query, params])
  {
    var all := [first, query, params];
    assert ToLower("request-time") == "request-time";
    assert ToLower("method-name") == "method-name";
    assert ToLower("client-ip") == "client-ip";
    JoinFirstValueWins(all, "request-time", t);
    JoinFirstValueWins(all, "method-name", name);
    JoinFirstValueWins(all, "client-ip", ip);
    forall k | k in query
      ensures k in JoinAll(all)
    {
      JoinKeys(all, k);
      assert k in all[1];
    }
    forall k | k in params
      ensures k in JoinAll(all)
    {
      JoinKeys(all, k);
      assert k in all[2];
    }
  }

  /** The handler: the options it was built with and the routes registered on its engine. */
  class Handler {
    var opts: Settings
    var routes: seq<Route>

    constructor (opts: Settings)
      ensures this.opts == opts && routes == []
    {
      this.opts := opts;
      routes := [];
    }

    /** RegisterService: panics (true) when the receiver does not register, the proto rules do
        not load or a method's rules cannot be built; otherwise records the service name and
        adds, for the methods in map order, one route per rule. */
    method RegisterService(srv: Receiver, decoded: Result<FileDesc, string>)
      returns (panicked: bool, ghost order: seq<string>)
      modifies this
      ensures var ps := ProtoState(old(opts).protoName, decoded);
              var table := Table(srv.methods);
              !panicked <==> IsExported(ServiceTypeName(srv.typ)) && table.Some? && ps.err.None? &&
                             forall k :: k in table.value ==> RulesFor(ps.methodMap, k).Some?
      ensures !panicked ==>
                var name := ServiceTypeName(srv.typ);
                var table := Table(srv.methods).value;
                IsOrder(order, table.Keys) &&
                opts == old(opts).(serviceName := name) &&
                |old(routes)| <= |routes| && routes[..|old(routes)|] == old(routes) &&
                RoutesOf(PrefixFor(old(opts).prefix, name), RulesOfMap(ProtoState(old(opts).protoName, decoded).methodMap),
                         table, order) == Some(routes[|old(routes)|..])
    {
      order := [];
      var service, rerr := Register(srv);
      if rerr.Some? {
        return true, order;
      }
      var pe, perr := NewProtoExtend(opts.protoName, decoded);
      assert SetupState(pe.methodMap, perr) == ProtoState(opts.protoName, decoded);
      if perr.Some? {
        return true, order;
      }
      opts := opts.(serviceName := service.name);
      var prefix := opts.prefix;
      if prefix == "" {
        prefix := "/" + opts.serviceName + "/";
      }
      var ok;
      ok, order := AddServiceRoutes(prefix, pe, service);
      return !ok, order;
    }

    /** The loop of RegisterService: for each method, in map order, its rules become routes;
        false stands for the panic of methodHttpRules. */
    method AddServiceRoutes(prefix: string, pe: ProtoExtend, service: RPCService)
      returns (ok: bool, ghost order: seq<string>)
      modifies this
      ensures opts == old(opts)
      ensures ok <==> forall k :: k in service.methods ==> RulesFor(pe.methodMap, k).Some?
      ensures ok ==> IsOrder(order, service.methods.Keys) &&
                     |old(routes)| <= |routes| && routes[..|old(routes)|] == old(routes) &&
                     RoutesOf(prefix, RulesOfMap(pe.methodMap), service.methods, order) == Some(routes[|old(routes)|..])
    {
      order := [];
      ghost var table := service.methods;
      ghost var rulesOf := RulesOfMap(pe.methodMap);
      ghost var start := routes;
      var todo := service.methods.Keys;
      assert routes[|start|..] == [];
      while todo != {}
        invariant todo <= table.Keys
        invariant opts == old(opts)
        invariant Visited(order, todo, table.Keys)
        invariant |start| <= |routes| && routes[..|start|] == start
        invariant RoutesOf(prefix, rulesOf, table, order) == Some(routes[|start|..])
        decreases todo
      {
        var k :| k in todo;
        var rules := pe.MethodHttpRules(k);
        if rules.None? {
          return false, order;
        }
        ghost var before := routes;
        AddRuleRoutes(prefix, rules.value, service.methods[k]);
        assert rulesOf(k) == rules;
        RoutesOfSnoc(prefix, rulesOf, table, order, k, rules.value);
        DropAppend(before, RuleRoutes(prefix, rules.value, table[k]), |start|);
        VisitedStep(order, todo, table.Keys, k);
        order := order + [k];
        todo := todo - {k};
      }
      assert IsOrder(order, table.Keys);
      RoutesOfDefined(prefix, rulesOf, table, order);
      forall k | k in table
        ensures RulesFor(pe.methodMap, k).Some?
      {
        var i :| 0 <= i < |order| && order[i] == k;
        assert rulesOf(order[i]).Some?;
      }
      return true, order;
    }

    /** The inner loop of RegisterService: one h.Handle call per rule, in rule order. */
    method AddRuleRoutes(prefix: string, rules: seq<Rule>, sm: ServiceMethod)
      modifies this
      ensures opts == old(opts)
      ensures routes == old(routes) + RuleRoutes(prefix, rules, sm)
    {
      ghost var start := routes;
      ghost var all := RuleRoutes(prefix, rules, sm);
      var j := 0;
      AppendTakeNone(start, all);
      while j < |rules|
        invariant 0 <= j <= |rules|
        invariant opts == old(opts)
        invariant routes == start + all[..j]
      {
        RuleRoutesStep(start, prefix, rules, sm, j);
        AddRoute(Route(rules[j].verb, JoinPath(prefix, rules[j].pattern), sm));
        j := j + 1;
      }
      AppendTakeAll(start, all);
    }

    /** The engine's Handle: one route registered after the ones before it. */
    method AddRoute(route: Route)
      modifies this
      ensures opts == old(opts)
      ensures routes == old(routes) + [route]
    {
      routes := routes + [route];
    }

    /** ServeHTTP: the path rewrite before the engine dispatches. */
    method ServeHTTP(req: Request) returns (panicked: bool)
      modifies req
      ensures panicked <==> RewritePath(opts.prefix, opts.serviceName, old(req.path)).None?
      ensures panicked ==> req.path == old(req.path)
      ensures !panicked ==> Some(req.path) == RewritePath(opts.prefix, opts.serviceName, old(req.path))
    {
      var idx := LastIndexOf(req.path, '/');
      if idx < 0 {
        return true;
      }
      if opts.prefix == "" {
        req.path := "/" + opts.serviceName + req.path[idx..];
      }
      return false;
    }

    /** The function ginHandler returns, for one request: header, query, path params, the clock
        and the client address are its inputs, and `decoded` is what Codec.Decode produced.
        The three synthetic keys are set before the join, so Get returns their values. */
    method Handle(sm: ServiceMethod, header: Entries, query: Entries, params: seq<(string, string)>,
                  now: int, clientIp: string, decoded: Result<Value, Error>)
      returns (resp: Response, md: Entries)
      ensures Lookup(md, "request-time") == IntToString(now)
      ensures Lookup(md, "method-name") == sm.sig.name
      ensures Lookup(md, "client-ip") == clientIp
      ensures forall k :: k in query ==> k in md
      ensures forall k :: k in ParamsMap(params) ==> k in md
      ensures exists first :: FromHeader(header, "", first) &&
                md == JoinAll([Stamped(first, IntToString(now), sm.sig.name, clientIp), query, ParamsMap(params)])
      ensures resp == Respond(opts.codec, DoHandle(opts.interceptors, sm, Context(md), decoded))
    {
      md := RequestMetadata(header, query, params, IntToString(now), sm.sig.name, clientIp);
      var reply := DoHandle(opts.interceptors, sm, Context(md), decoded);
      resp := Respond(opts.codec, reply);
    }
  }

  /** The part of *http.Request that ServeHTTP changes. */
  class Request {
    var path: string

    constructor (path: string)
      ensures this.path == path
    {
      this.path := path;
    }
  }

  /** The metadata ginHandler attaches to the request: the "-"-keys of the header with the three
      synthetic keys Set over them, joined with the query and the path params. */
  method RequestMetadata(header: Entries, query: Entries, params: seq<(string, string)>,
                         t: string, name: string, ip: string) returns (md: Entries)
    ensures Lookup(md, "request-time") == t
    ensures Lookup(md, "method-name") == name
    ensures Lookup(md, "client-ip") == ip
    ensures forall k :: k in query ==> k in md
    ensures forall k :: k in ParamsMap(params) ==> k in md
    ensures exists first :: FromHeader(header, "", first) && md == JoinAll([Stamped(first, t, name, ip), query, ParamsMap(params)])
  {
    var first := NewMetadata(header, "");
    ghost var filtered := first.entries;
    Stamp(first, t, name, ip);
    var fromQuery := new Metadata();
    fromQuery.entries := query;
    var fromParams := GinParams(params);
    assert EntriesOf([first, fromQuery, fromParams]) == [first.entries, query, ParamsMap(params)];
    var joined := GinMetadata.Join([first, fromQuery, fromParams]);
    md := joined.entries;
    SyntheticKeysWin(first.entries, query, ParamsMap(params), t, name, ip);
    assert FromHeader(header, "", filtered) && md == JoinAll([Stamped(filtered, t, name, ip), query, ParamsMap(params)]);
  }

  /** The three md.Set calls of ginHandler. */
  method Stamp(md: Metadata, t: string, name: string, ip: string)
    modifies md
    ensures "request-time" in md.entries && md.entries["request-time"] == [t]
    ensures "method-name" in md.entries && md.entries["method-name"] == [name]
    ensures "client-ip" in md.entries && md.entries["client-ip"] == [ip]
    ensures md.entries == Stamped(old(md.entries), t, name, ip)
    ensures forall k :: k in old(md.entries) && k != "request-time" && k != "method-name" && k != "client-ip" ==>
              k in md.entries && md.entries[k] == old(md.entries)[k]
  {
    StampedEntries(md.entries, t, name, ip);
    md.Set("request-time", t);
    md.Set("method-name", name);
    md.Set("client-ip", ip);
  }

  /** NewHandler: the defaults, then every option in order. */
  method NewHandler(opts: seq<Opt>) returns (h: Handler)
    ensures fresh(h) && h.routes == []
    ensures h.opts == ApplyAll(opts, Defaults())
  {
    var o := new Options(Defaults());
    var i := 0;
    while i < |opts|
      invariant 0 <= i <= |opts|
      invariant o.Snapshot() == ApplyAll(opts[..i], Defaults())
    {
      o.Apply(opts[i]);
      assert opts[..i + 1][..i] == opts[..i];
      i := i + 1;
    }
    assert opts[..i] == opts;
    h := new Handler(o.Snapshot());
  }

  /** ginParams: each path param Set in turn into a fresh map. */
  method GinParams(params: seq<(string, string)>) returns (md: Metadata)
    ensures fresh(md)
    ensures md.entries == ParamsMap(params)
  {
    md := new Metadata();
    var i := 0;
    while i < |params|
      invariant 0 <= i <= |params|
      invariant md.entries == ParamsMap(params[..i])
    {
      md.Set(params[i].0, params[i].1);
      assert params[..i + 1][..i] == params[..i];
      i := i + 1;
    }
    assert params[..i] == params;
  }
}

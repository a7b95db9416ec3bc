/** The binding resolver: google.api.HttpRule annotations of a proto service, read from an
    already-decoded file descriptor, become (HTTP method, gin path pattern, body) rules. */
module GinHttpRuler {
  import opened Wrappers
  import opened Seqs
  import opened Strings
  import opened GinNaming

  /** The `pattern` oneof of google.api.HttpRule; Unset is a rule whose oneof holds nothing. */
  datatype Pattern =
    | Get(path: string)
    | Put(path: string)
    | Post(path: string)
    | Delete(path: string)
    | Patch(path: string)
    | Custom(kind: string, path: string)
    | Unset

  /** google.api.HttpRule, with the fields the gateway reads. */
  datatype HttpRule = HttpRule(pattern: Pattern, body: string, additionalBindings: seq<HttpRule>)

  /** httpRule: one route to register. */
  datatype Rule = Rule(verb: string, pattern: string, body: string)

  /** What proto.GetExtension(md.Options, E_Http) yields: an HttpRule or a value of another type. */
  datatype Extension = HttpRuleExt(rule: HttpRule) | OtherExt

  /** A method descriptor: None options for a method without options (or a nil method);
      otherwise the result of extracting the http extension from them. */
  datatype MethodDesc = MethodDesc(name: string, options: Option<Result<Extension, string>>)

  datatype ServiceDesc = ServiceDesc(methods: seq<MethodDesc>)

  datatype FileDesc = FileDesc(services: seq<ServiceDesc>)

  // ---- strings.Title ----

  /** strings.Title's word separator for ASCII: anything but a letter, a digit or '_';
      beyond ASCII only white space separates. */
  predicate IsSeparator(c: char)
  {
    if c as int < 128 then !(IsUpper(c) || IsLower(c) || IsDigit(c) || c == '_') else IsSpace(c)
  }

  /** strings.Title: every letter that starts a word is upper-cased. */
  function Title(s: string): (r: string)
    ensures |r| == |s|
  {
    seq(|s|, i requires 0 <= i < |s| => if i == 0 || IsSeparator(s[i - 1]) then ToUpperChar(s[i]) else s[i])
  }

  predicate IsIdentifier(s: string)
  {
    forall i :: 0 <= i < |s| ==> IsUpper(s[i]) || IsLower(s[i]) || IsDigit(s[i]) || s[i] == '_'
  }

  /** On an identifier, Title upper-cases the first letter only. */
  lemma TitleIdentifier(s: string)
    requires |s| > 0 && IsIdentifier(s)
    ensures Title(s) == [ToUpperChar(s[0])] + s[1..]
  {
    var t := Title(s);
    var u := [ToUpperChar(s[0])] + s[1..];
    forall i | 0 <= i < |s|
      ensures t[i] == u[i]
    {
      if i > 0 {
        assert !IsSeparator(s[i - 1]);
      }
    }
    assert t == u;
  }

  lemma TitleGetUser()
    ensures Title("getUser") == "GetUser"
  {
    TitleIdentifier("getUser");
  }

  // ---- methodPattern, ginMethodPattern ----

  /** ginMethodPattern: every '{' becomes ':' and every '}' is deleted. */
  function GinMethodPattern(p: string): (r: string)
    ensures '{' !in r && '}' !in r
    ensures |r| == |p| - Count(p, '}')
  {
    var q := ReplaceChar(p, '{', ':');
    assert Count(q, '}') == Count(p, '}') by { ReplaceCharCount(p, '{', ':', '}'); }
    RemoveChar(q, '}')
  }

  lemma {:induction false} ReplaceCharCount(s: string, a: char, b: char, c: char)
    requires c != a && c != b
    ensures Count(ReplaceChar(s, a, b), c) == Count(s, c)
  {
    if |s| > 0 {
      ReplaceCharCount(s[1..], a, b, c);
      assert ReplaceChar(s, a, b)[1..] == ReplaceChar(s[1..], a, b);
    }
  }

  lemma ReplaceCharAbsent(s: string, a: char, b: char)
    requires a !in s
    ensures ReplaceChar(s, a, b) == s
  {
  }

  /** A pattern without braces is kept as it is. */
  lemma GinMethodPatternPlain(p: string)
    requires '{' !in p && '}' !in p
    ensures GinMethodPattern(p) == p
  {
    ReplaceCharAbsent(p, '{', ':');
    RemoveCharAbsent(p, '}');
  }

  /** Converting twice is converting once. */
  lemma GinMethodPatternIdempotent(p: string)
    ensures GinMethodPattern(GinMethodPattern(p)) == GinMethodPattern(p)
  {
    GinMethodPatternPlain(GinMethodPattern(p));
  }

  /** A placeholder "{x}" becomes ":x", the rest is kept. */
  lemma {:induction false} GinMethodPatternPlaceholder(a: string, x: string)
    requires '{' !in a && '}' !in a && '{' !in x && '}' !in x
    ensures GinMethodPattern(a + "{" + x + "}") == a + ":" + x
  {
    GinMethodPatternAppend(a + "{" + x, "}");
    GinMethodPatternAppend(a + "{", x);
    GinMethodPatternAppend(a, "{");
    GinMethodPatternPlain(a);
    GinMethodPatternPlain(x);
    GinMethodPatternChar('{');
    GinMethodPatternChar('}');
    assert "{" == ['{'] && "}" == ['}'];
  }

  /** The conversion works character by character: on a concatenation it is the concatenation of
      the conversions, and GinMethodPatternChar says what it does to one character. */
  lemma GinMethodPatternAppend(a: string, b: string)
    ensures GinMethodPattern(a + b) == GinMethodPattern(a) + GinMethodPattern(b)
  {
    var ra, rb := ReplaceChar(a, '{', ':'), ReplaceChar(b, '{', ':');
    assert ReplaceChar(a + b, '{', ':') == ra + rb;
    RemoveCharAppend(ra, rb, '}');
  }

  /** Every '{' becomes ':', every '}' is dropped, any other character is kept. */
  lemma GinMethodPatternChar(c: char)
    ensures GinMethodPattern([c]) == if c == '{' then ":" else if c == '}' then "" else [c]
  {
    var q := ReplaceChar([c], '{', ':');
    assert q == [if c == '{' then ':' else c];
    assert q[1..] == [];
  }

  /** A placeholder in mid-path: "a{x}b" becomes "a:xb", whatever plain text follows. */
  lemma GinMethodPatternMidPath(a: string, x: string, b: string)
    requires '{' !in a && '}' !in a && '{' !in x && '}' !in x && '{' !in b && '}' !in b
    ensures GinMethodPattern(a + "{" + x + "}" + b) == a + ":" + x + b
  {
    GinMethodPatternAppend(a + "{" + x + "}", b);
    GinMethodPatternPlaceholder(a, x);
    GinMethodPatternPlain(b);
  }

  /** Two placeholders: "a{x}b{y}" becomes "a:xb:y". */
  lemma GinMethodPatternTwoPlaceholders(a: string, x: string, b: string, y: string)
    requires '{' !in a && '}' !in a && '{' !in x && '}' !in x
    requires '{' !in b && '}' !in b && '{' !in y && '}' !in y
    ensures GinMethodPattern(a + "{" + x + "}" + (b + "{" + y + "}")) == a + ":" + x + (b + ":" + y)
  {
    GinMethodPatternAppend(a + "{" + x + "}", b + "{" + y + "}");
    GinMethodPatternPlaceholder(a, x);
    GinMethodPatternPlaceholder(b, y);
  }

  /** "/users/{id}" becomes "/users/:id". */
  lemma GinMethodPatternUsers()
    ensures GinMethodPattern("/users/{id}") == "/users/:id"
  {
    var a, x := "/users/", "id";
    assert '{' !in a && '}' !in a && '{' !in x && '}' !in x;
    GinMethodPatternPlaceholder(a, x);
    assert a + "{" + x + "}" == "/users/{id}";
    assert a + ":" + x == "/users/:id";
  }

  /** methodPattern: the HTTP method and the gin pattern of a rule; None stands for the panic on
      a pattern the gateway does not support. */
  function MethodPattern(hr: HttpRule): (r: Option<(string, string)>)
    ensures r.None? <==> hr.pattern.Unset?
    ensures r.Some? ==> r.value.1 == GinMethodPattern(hr.pattern.path)
  {
    match hr.pattern
    case Get(p) => Some(("GET", GinMethodPattern(p)))
    case Post(p) => Some(("POST", GinMethodPattern(p)))
    case Patch(p) => Some(("PATCH", GinMethodPattern(p)))
    case Put(p) => Some(("PUT", GinMethodPattern(p)))
    case Delete(p) => Some(("DELETE", GinMethodPattern(p)))
    case Custom(kind, p) => Some((kind, GinMethodPattern(p)))
    case Unset => None
  }

  /** The method name each pattern variant maps to. */
  lemma MethodPatternVerbs(p: string, kind: string, body: string)
    ensures MethodPattern(HttpRule(Get(p), body, [])).value.0 == "GET"
    ensures MethodPattern(HttpRule(Post(p), body, [])).value.0 == "POST"
    ensures MethodPattern(HttpRule(Patch(p), body, [])).value.0 == "PATCH"
    ensures MethodPattern(HttpRule(Put(p), body, [])).value.0 == "PUT"
    ensures MethodPattern(HttpRule(Delete(p), body, [])).value.0 == "DELETE"
    ensures MethodPattern(HttpRule(Custom(kind, p), body, [])).value.0 == kind
  {
  }

  // ---- setup ----

  /** The fields of protoExtend after some of the setup loop: the map and the error, if any. */
  datatype SetupState = SetupState(methodMap: map<string, HttpRule>, err: Option<string>)

  /** All methods of all services, in declaration order. */
  function Flatten(services: seq<ServiceDesc>): seq<MethodDesc>
  {
    if |services| == 0 then [] else Flatten(services[..|services| - 1]) + services[|services| - 1].methods
  }

  predicate Annotated(md: MethodDesc)
  {
    md.options.Some? && md.options.value.Success? && md.options.value.value.HttpRuleExt?
  }

  predicate Broken(md: MethodDesc)
  {
    md.options.Some? && !Annotated(md)
  }

  /** One turn of the inner loop of setup. */
  function SetupStep(m: map<string, HttpRule>, md: MethodDesc): SetupState
  {
    match md.options
    case None => SetupState(m, None)
    case Some(Failure(e)) => SetupState(m, Some(e))
    case Some(Success(OtherExt)) => SetupState(m, Some("option invalid"))
    case Some(Success(HttpRuleExt(hr))) => SetupState(m[Title(md.name) := hr], None)
  }

  /** setup over the flattened method list: it stops at the first failure and keeps what it
      has stored so far. */
  function Setup(ms: seq<MethodDesc>): SetupState
  {
    if |ms| == 0 then SetupState(map[], None)
    else
      var s := Setup(ms[..|ms| - 1]);
      if s.err.Some? then s else SetupStep(s.methodMap, ms[|ms| - 1])
  }

  /** setup fails exactly when some method's options are there but hold no HttpRule. */
  lemma {:induction false} SetupFails(ms: seq<MethodDesc>)
    ensures Setup(ms).err.Some? <==> exists i :: 0 <= i < |ms| && Broken(ms[i])
  {
    if |ms| > 0 {
      var init := ms[..|ms| - 1];
      SetupFails(init);
      if exists i :: 0 <= i < |init| && Broken(init[i]) {
        var i :| 0 <= i < |init| && Broken(init[i]);
        assert Broken(ms[i]);
      }
      if exists i :: 0 <= i < |ms| && Broken(ms[i]) {
        var i :| 0 <= i < |ms| && Broken(ms[i]);
        if i < |ms| - 1 {
          assert Broken(init[i]);
        }
      }
    }
  }

  /** Without a failure, the keys are exactly the annotated methods' names, title-cased; methods
      without options are skipped. */
  lemma {:induction false} SetupKeys(ms: seq<MethodDesc>, key: string)
    requires Setup(ms).err.None?
    ensures key in Setup(ms).methodMap <==> exists i :: 0 <= i < |ms| && Annotated(ms[i]) && Title(ms[i].name) == key
  {
    if |ms| > 0 {
      var init := ms[..|ms| - 1];
      SetupKeys(init, key);
      if exists i :: 0 <= i < |init| && Annotated(init[i]) && Title(init[i].name) == key {
        var i :| 0 <= i < |init| && Annotated(init[i]) && Title(init[i].name) == key;
        assert ms[i] == init[i];
      }
      if exists i :: 0 <= i < |ms| && Annotated(ms[i]) && Title(ms[i].name) == key {
        var i :| 0 <= i < |ms| && Annotated(ms[i]) && Title(ms[i].name) == key;
        if i < |ms| - 1 {
          assert init[i] == ms[i];
        }
      }
    }
  }

  /** The rule stored under a method's title-cased name is that method's rule. */
  lemma SetupStores(ms: seq<MethodDesc>, md: MethodDesc, hr: HttpRule)
    requires Setup(ms).err.None?
    requires md.options == Some(Success(HttpRuleExt(hr)))
    ensures Setup(ms + [md]).err.None?
    ensures Setup(ms + [md]).methodMap[Title(md.name)] == hr
  {
    assert (ms + [md])[..|ms + [md]| - 1] == ms;
  }

  lemma {:induction false} FlattenAppend(a: seq<ServiceDesc>, b: seq<ServiceDesc>)
    ensures Flatten(a + b) == Flatten(a) + Flatten(b)
  {
    if |b| == 0 {
      assert a + b == a;
    } else {
      var ab := a + b;
      assert ab[..|ab| - 1] == a + b[..|b| - 1];
      assert ab[|ab| - 1] == b[|b| - 1];
      FlattenAppend(a, b[..|b| - 1]);
    }
  }

  /** Once setup has failed, later methods change nothing. */
  lemma {:induction false} SetupStopped(a: seq<MethodDesc>, b: seq<MethodDesc>)
    requires Setup(a).err.Some?
    ensures Setup(a + b) == Setup(a)
  {
    if |b| == 0 {
      assert a + b == a;
    } else {
      var ab := a + b;
      assert ab[..|ab| - 1] == a + b[..|b| - 1];
      SetupStopped(a, b[..|b| - 1]);
    }
  }

  /** The flattened list, cut after method j of service i. */
  lemma EarlyStop(services: seq<ServiceDesc>, i: int, j: int)
    requires 0 <= i < |services| && 0 <= j < |services[i].methods|
    requires Setup(Flatten(services[..i]) + services[i].methods[..j + 1]).err.Some?
    ensures Setup(Flatten(services)) == Setup(Flatten(services[..i]) + services[i].methods[..j + 1])
  {
    var ms := services[i].methods;
    var before := Flatten(services[..i]);
    var rest := Flatten(services[i + 1..]);
    FlattenAround(services, i);
    CutMiddle(before, ms, rest, j + 1);
    SetupStopped(before + ms[..j + 1], ms[j + 1..] + rest);
  }

  /** The flattened list around service i: the methods before it, its own, the ones after. */
  lemma FlattenAround(services: seq<ServiceDesc>, i: int)
    requires 0 <= i < |services|
    ensures Flatten(services) == (Flatten(services[..i]) + services[i].methods) + Flatten(services[i + 1..])
  {
    TakeDrop(services, i);
    FlattenAppend(services[..i + 1], services[i + 1..]);
  }

  /** One more method, after a setup that has not failed: one more step. */
  lemma SetupSnoc(ms: seq<MethodDesc>, md: MethodDesc)
    requires Setup(ms).err.None?
    ensures Setup(ms + [md]) == SetupStep(Setup(ms).methodMap, md)
  {
    assert (ms + [md])[..|ms + [md]| - 1] == ms;
  }

  /** protoExtend */
  class ProtoExtend {
    var protoName: string
    var methodMap: map<string, HttpRule>

    constructor (protoName: string)
      ensures this.protoName == protoName && methodMap == map[]
    {
      this.protoName := protoName;
      methodMap := map[];
    }

    /** setup's loops over services and their methods. */
    method SetupFrom(desc: FileDesc) returns (err: Option<string>)
      modifies this
      ensures protoName == old(protoName)
      ensures old(methodMap) == map[] ==> Setup(Flatten(desc.services)) == SetupState(methodMap, err)
    {
      ghost var start := methodMap;
      var i := 0;
      while i < |desc.services|
        invariant 0 <= i <= |desc.services|
        invariant protoName == old(protoName)
        invariant start == map[] ==> Setup(Flatten(desc.services[..i])) == SetupState(methodMap, None)
      {
        ghost var before := Flatten(desc.services[..i]);
        assert desc.services[..i + 1][..i] == desc.services[..i];
        assert Flatten(desc.services[..i + 1]) == before + desc.services[i].methods;
        var e;
        ghost var j;
        e, j := SetupMethods(start, before, desc.services[i].methods);
        if e.Some? {
          if start == map[] {
            EarlyStop(desc.services, i, j);
          }
          return e;
        }
        i := i + 1;
      }
      assert desc.services[..|desc.services|] == desc.services;
      return None;
    }

    /** The inner loop of setup, over one service's methods; on failure j is the method that
        stopped it. */
    method SetupMethods(ghost start: map<string, HttpRule>, ghost before: seq<MethodDesc>, methods: seq<MethodDesc>)
      returns (err: Option<string>, ghost j: nat)
      modifies this
      requires start == map[] ==> Setup(before) == SetupState(methodMap, None)
      ensures protoName == old(protoName)
      ensures err.None? && start == map[] ==> Setup(before + methods) == SetupState(methodMap, None)
      ensures err.Some? ==> j < |methods|
      ensures err.Some? && start == map[] ==> Setup(before + methods[..j + 1]) == SetupState(methodMap, err)
    {
      var k := 0;
      assert before + methods[..0] == before;
      while k < |methods|
        invariant 0 <= k <= |methods|
        invariant protoName == old(protoName)
        invariant start == map[] ==> Setup(before + methods[..k]) == SetupState(methodMap, None)
      {
        var md := methods[k];
        ghost var cur := before + methods[..k];
        SnocTake(before, methods, k);
        if start == map[] {
          SetupSnoc(cur, md);
        }
        match md.options {
          case None =>
          case Some(Failure(e)) =>
            j := k;
            return Some(e), j;
          case Some(Success(OtherExt)) =>
            j := k;
            return Some("option invalid"), j;
          case Some(Success(HttpRuleExt(hr))) =>
            methodMap := methodMap[Title(md.name) := hr];
        }
        k := k + 1;
      }
      assert methods[..|methods|] == methods;
      return None, 0;
    }

    /** methodHttpRules: None stands for the panic in methodPattern. */
    method MethodHttpRules(name: string) returns (rules: Option<seq<Rule>>)
      ensures rules == RulesFor(methodMap, name)
    {
      if name !in methodMap {
        var pattern := ToUnderLine(name);
        if pattern.None? {
          return None;
        }
        return Some([Rule("POST", pattern.value, "*")]);
      }
      var ruler := methodMap[name];
      var primary := MethodPattern(ruler);
      if primary.None? {
        return None;
      }
      var rest := BindAll(ruler.additionalBindings, ruler.body);
      if rest.None? {
        return None;
      }
      return Some([Rule(primary.value.0, primary.value.1, ruler.body)] + rest.value);
    }
  }

  /** methodHttpRules' loop over the additional bindings; None stands for the panic in
      methodPattern. */
  method BindAll(bindings: seq<HttpRule>, body: string) returns (rules: Option<seq<Rule>>)
    ensures rules == Bind(bindings, body)
  {
    var acc := [];
    var k := 0;
    while k < |bindings|
      invariant 0 <= k <= |bindings|
      invariant Bind(bindings[..k], body) == Some(acc)
    {
      var mp := MethodPattern(bindings[k]);
      assert bindings[..k + 1][..k] == bindings[..k];
      if mp.None? {
        BindDefined(bindings, body);
        return None;
      }
      acc := acc + [Rule(mp.value.0, mp.value.1, body)];
      k := k + 1;
    }
    assert bindings[..k] == bindings;
    return Some(acc);
  }

  /** newProtoExtend: an empty proto name skips decoding; otherwise the decoded descriptor (or
      the decoding error) is read by setup. */
  method NewProtoExtend(protoName: string, decoded: Result<FileDesc, string>)
    returns (pe: ProtoExtend, err: Option<string>)
    ensures fresh(pe) && pe.protoName == protoName
    ensures protoName == "" ==> pe.methodMap == map[] && err == None
    ensures protoName != "" && decoded.Failure? ==> pe.methodMap == map[] && err == Some(decoded.error)
    ensures protoName != "" && decoded.Success? ==>
              Setup(Flatten(decoded.value.services)) == SetupState(pe.methodMap, err)
  {
    pe := new ProtoExtend(protoName);
    err := None;
    if protoName == "" {
      return;
    }
    if decoded.Failure? {
      err := Some(decoded.error);
      return;
    }
    err := pe.SetupFrom(decoded.value);
  }

  /** The rules of the additional bindings, each with the primary rule's body. */
  function Bind(bindings: seq<HttpRule>, body: string): (r: Option<seq<Rule>>)
    ensures r.Some? ==> |r.value| == |bindings|
  {
    if |bindings| == 0 then Some([])
    else
      var init := Bind(bindings[..|bindings| - 1], body);
      var mp := MethodPattern(bindings[|bindings| - 1]);
      if init.None? || mp.None? then None else Some(init.value + [Rule(mp.value.0, mp.value.1, body)])
  }

  /** Every binding whose pattern is supported gives one rule, in order, with the given body. */
  lemma {:induction false} BindRules(bindings: seq<HttpRule>, body: string)
    requires Bind(bindings, body).Some?
    ensures forall i :: 0 <= i < |bindings| ==>
              MethodPattern(bindings[i]).Some? &&
              Bind(bindings, body).value[i]
                == Rule(MethodPattern(bindings[i]).value.0, MethodPattern(bindings[i]).value.1, body)
  {
    if |bindings| > 0 {
      var init := bindings[..|bindings| - 1];
      BindRules(init, body);
      forall i | 0 <= i < |bindings| - 1
        ensures bindings[i] == init[i]
      {
      }
    }
  }

  /** Bind has a result exactly when every binding's pattern is supported. */
  lemma {:induction false} BindDefined(bindings: seq<HttpRule>, body: string)
    ensures Bind(bindings, body).Some? <==> forall i :: 0 <= i < |bindings| ==> MethodPattern(bindings[i]).Some?
  {
    if |bindings| > 0 {
      var init := bindings[..|bindings| - 1];
      BindDefined(init, body);
      forall i | 0 <= i < |bindings| - 1
        ensures bindings[i] == init[i]
      {
      }
    }
  }

  /** methodHttpRules over the map setup filled. */
  function RulesFor(methodMap: map<string, HttpRule>, name: string): Option<seq<Rule>>
  {
    if name !in methodMap then
      match UnderLine(name)
      case None => None
      case Some(p) => Some([Rule("POST", p, "*")])
    else
      var hr := methodMap[name];
      match (MethodPattern(hr), Bind(hr.additionalBindings, hr.body))
      case (Some(mp), Some(rest)) => Some([Rule(mp.0, mp.1, hr.body)] + rest)
      case _ => None
  }

  /** A method without a rule gets exactly one: POST to its underscore name, with body "*". */
  lemma RulesForAbsent(methodMap: map<string, HttpRule>, name: string)
    requires name !in methodMap && |name| > 0
    ensures RulesFor(methodMap, name).Some?
    ensures RulesFor(methodMap, name).value == [Rule("POST", UnderLine(name).value, "*")]
  {
  }

  /** A method with a rule gets the primary rule first, then one rule per additional binding in
      order, every one of them carrying the primary rule's body. */
  lemma RulesForPresent(methodMap: map<string, HttpRule>, name: string, rules: seq<Rule>)
    requires name in methodMap && RulesFor(methodMap, name) == Some(rules)
    ensures |rules| == 1 + |methodMap[name].additionalBindings|
    ensures MethodPattern(methodMap[name]).Some?
    ensures rules[0] == Rule(MethodPattern(methodMap[name]).value.0, MethodPattern(methodMap[name]).value.1,
                             methodMap[name].body)
    ensures forall i :: 0 <= i < |methodMap[name].additionalBindings| ==>
              MethodPattern(methodMap[name].additionalBindings[i]).Some? &&
              rules[i + 1].verb == MethodPattern(methodMap[name].additionalBindings[i]).value.0 &&
              rules[i + 1].pattern == MethodPattern(methodMap[name].additionalBindings[i]).value.1
    ensures forall i :: 0 <= i < |rules| ==> rules[i].body == methodMap[name].body
  {
    var hr := methodMap[name];
    BindRules(hr.additionalBindings, hr.body);
    var rest := Bind(hr.additionalBindings, hr.body).value;
    var mp := MethodPattern(hr).value;
    var primary := Rule(mp.0, mp.1, hr.body);
    assert rules == [primary] + rest;
    ConsIndex(primary, rest);
  }

  /** For a method with a rule, methodHttpRules panics exactly when its pattern or one of its
      additional bindings' patterns is unset. */
  lemma RulesForPanics(methodMap: map<string, HttpRule>, name: string)
    requires name in methodMap
    ensures var hr := methodMap[name];
            RulesFor(methodMap, name).None? <==>
              hr.pattern.Unset? || exists i :: 0 <= i < |hr.additionalBindings| && hr.additionalBindings[i].pattern.Unset?
  {
    var hr := methodMap[name];
    BindDefined(hr.additionalBindings, hr.body);
  }
}

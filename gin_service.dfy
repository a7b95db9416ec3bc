/** The service registry: which methods of a receiver become routes, and how a registered
    method's results become a reply. Reflection is replaced by explicit type descriptors and a
    stored callable for each method. */
module GinService {
  import opened Wrappers
  import opened Strings
  import opened GinValues

  /** A reflect.Method: its name, its package path ("" when exported), its parameter types
      (the receiver first), its result types, and Func.Call with the receiver already bound. */
  datatype MethodSig = MethodSig(
    name: string, pkgPath: string, ins: seq<Type>, outs: seq<Type>,
    call: (Context, Value) -> seq<Value>)

  /** The value handed to register: its dynamic type and that type's method set, in the order
      reflect numbers them. */
  datatype Receiver = Receiver(typ: Type, methods: seq<MethodSig>)

  /** ServiceMethod: the request and response types (the pointees of the declared pointers)
      and the method. */
  datatype ServiceMethod = ServiceMethod(reqType: Type, respType: Type, sig: MethodSig)

  /** The three outcomes of newServiceMethod: nil, a panic, or a method. */
  datatype Admission = Skipped | Fatal | Accepted(sm: ServiceMethod)

  datatype RegisterError = NoServiceName(typ: Type) | BadSignature(methodName: string)

  /** isExported: the name starts with an upper-case letter (ASCII letters in this model). */
  function IsExported(name: string): (r: bool)
    ensures r <==> |name| > 0 && name[0] in "ABCDEFGHIJKLMNOPQRSTUVWXYZ"
  {
    |name| > 0 && IsUpper(name[0])
  }

  function Implements(t: Type): set<Interface>
  {
    t.implements
  }

  /** The type with every pointer level stripped. */
  function Deref(t: Type): (r: Type)
    ensures r.Named?
  {
    match t
    case Pointer(elem, _) => Deref(elem)
    case Named(_, _, _) => t
  }

  function ExportedOrBuiltin(t: Type): bool
  {
    var b := Deref(t);
    IsExported(b.name) || b.pkgPath == ""
  }

  /** Any number of pointer levels leaves the answer unchanged. */
  lemma ExportedOrBuiltinThroughPointer(t: Type, ifaces: set<Interface>)
    ensures ExportedOrBuiltin(Pointer(t, ifaces)) == ExportedOrBuiltin(t)
  {
  }

  /** isExportedOrBuiltin, with its loop that strips pointers. */
  method IsExportedOrBuiltin(t: Type) returns (r: bool)
    ensures r == ExportedOrBuiltin(t)
  {
    var u := t;
    while u.Pointer?
      invariant Deref(u) == Deref(t)
      decreases u
    {
      u := u.elem;
    }
    r := IsExported(u.name) || u.pkgPath == "";
  }

  /** newServiceMethod. Its checks run in this order: exported, arity (three parameters with
      the receiver, two results), then context parameter and error result (a violation panics),
      then the request parameter, which must be a pointer to an exported or builtin type.
      Out(0).Elem() needs a pointer, slice, map, channel or array type; Type represents only
      pointers and named types, so here it succeeds on a pointer and panics on a named type. */
  function Admit(m: MethodSig): Admission
  {
    if m.pkgPath != "" then Skipped
    else if |m.ins| != 3 || |m.outs| != 2 then Skipped
    else if ContextInterface !in Implements(m.ins[1]) || ErrorInterface !in Implements(m.outs[1]) then Fatal
    else if !m.ins[2].Pointer? || !ExportedOrBuiltin(m.ins[2]) then Skipped
    else if !m.outs[0].Pointer? then Fatal
    else Accepted(ServiceMethod(m.ins[2].elem, m.outs[0].elem, m))
  }

  /** An accepted method is exported, has the right arity, and its request and response types
      are the pointees of the declared pointers. */
  lemma AdmitAccepted(m: MethodSig)
    requires Admit(m).Accepted?
    ensures m.pkgPath == "" && |m.ins| == 3 && |m.outs| == 2
    ensures ContextInterface in Implements(m.ins[1]) && ErrorInterface in Implements(m.outs[1])
    ensures m.ins[2] == Pointer(Admit(m).sm.reqType, m.ins[2].implements)
    ensures m.outs[0] == Pointer(Admit(m).sm.respType, m.outs[0].implements)
    ensures ExportedOrBuiltin(Admit(m).sm.reqType)
    ensures Admit(m).sm.sig == m
  {
  }

  /** The signature check comes before the request check: with the right arity, a method whose
      first parameter is not a context, or whose last result is not an error, panics even when
      its request type would be skipped. */
  lemma SignatureBeforeRequest(m: MethodSig)
    requires m.pkgPath == "" && |m.ins| == 3 && |m.outs| == 2
    requires ContextInterface !in Implements(m.ins[1]) || ErrorInterface !in Implements(m.outs[1])
    ensures Admit(m).Fatal?
  {
  }

  /** newServiceMethod panics exactly for an exported method of the right arity whose context
      parameter or error result is wrong, or whose admitted request comes with a first result
      that is not a pointer (the panic of Out(0).Elem()). */
  lemma AdmitFatal(m: MethodSig)
    ensures Admit(m).Fatal? <==>
              m.pkgPath == "" && |m.ins| == 3 && |m.outs| == 2 &&
              (ContextInterface !in Implements(m.ins[1]) || ErrorInterface !in Implements(m.outs[1]) ||
               (m.ins[2].Pointer? && ExportedOrBuiltin(m.ins[2]) && !m.outs[0].Pointer?))
  {
  }

  /** The three silent skips. */
  lemma AdmitSkips(m: MethodSig)
    ensures m.pkgPath != "" ==> Admit(m).Skipped?
    ensures m.pkgPath == "" && (|m.ins| != 3 || |m.outs| != 2) ==> Admit(m).Skipped?
    ensures (m.pkgPath == "" && |m.ins| == 3 && |m.outs| == 2 &&
             ContextInterface in Implements(m.ins[1]) && ErrorInterface in Implements(m.outs[1]) &&
             !m.ins[2].Pointer?) ==> Admit(m).Skipped?
  {
  }

  /** The method table register builds; None when some method panics. */
  function Table(ms: seq<MethodSig>): Option<map<string, ServiceMethod>>
  {
    if |ms| == 0 then Some(map[])
    else
      var t := Table(ms[..|ms| - 1]);
      var m := ms[|ms| - 1];
      match (t, Admit(m))
      case (None, _) => None
      case (_, Fatal) => None
      case (Some(tt), Skipped) => Some(tt)
      case (Some(tt), Accepted(sm)) => Some(tt[m.name := sm])
  }

  /** Registration panics exactly when some method's signature check panics. */
  lemma {:induction false} TableFatal(ms: seq<MethodSig>)
    ensures Table(ms).None? <==> exists i :: 0 <= i < |ms| && Admit(ms[i]).Fatal?
  {
    if |ms| > 0 {
      var init := ms[..|ms| - 1];
      TableFatal(init);
      if exists i :: 0 <= i < |init| && Admit(init[i]).Fatal? {
        var i :| 0 <= i < |init| && Admit(init[i]).Fatal?;
        assert ms[i] == init[i];
      }
      if exists i :: 0 <= i < |ms| && Admit(ms[i]).Fatal? {
        var i :| 0 <= i < |ms| && Admit(ms[i]).Fatal?;
        if i < |ms| - 1 {
          assert init[i] == ms[i];
        }
      }
    }
  }

  /** The table holds exactly the accepted methods. */
  lemma {:induction false} TableKeys(ms: seq<MethodSig>, name: string)
    requires Table(ms).Some?
    ensures name in Table(ms).value <==> exists i :: 0 <= i < |ms| && Admit(ms[i]).Accepted? && ms[i].name == name
  {
    if |ms| > 0 {
      var init := ms[..|ms| - 1];
      TableKeys(init, name);
      if exists i :: 0 <= i < |init| && Admit(init[i]).Accepted? && init[i].name == name {
        var i :| 0 <= i < |init| && Admit(init[i]).Accepted? && init[i].name == name;
        assert ms[i] == init[i];
      }
      if exists i :: 0 <= i < |ms| && Admit(ms[i]).Accepted? && ms[i].name == name {
        var i :| 0 <= i < |ms| && Admit(ms[i]).Accepted? && ms[i].name == name;
        if i < |ms| - 1 {
          assert init[i] == ms[i];
        }
      }
    }
  }

  /** Each entry is the ServiceMethod newServiceMethod built for a listed method of that name. */
  lemma {:induction false} TableNames(ms: seq<MethodSig>, name: string)
    requires Table(ms).Some? && name in Table(ms).value
    ensures Table(ms).value[name].sig.name == name
    ensures exists i :: 0 <= i < |ms| && ms[i].name == name && Admit(ms[i]) == Accepted(Table(ms).value[name])
  {
    var init := ms[..|ms| - 1];
    var last := ms[|ms| - 1];
    if Admit(last).Accepted? && last.name == name {
      assert Admit(ms[|ms| - 1]) == Accepted(Table(ms).value[name]);
    } else {
      assert Table(init).Some? && name in Table(init).value;
      assert Table(ms).value[name] == Table(init).value[name];
      TableNames(init, name);
      var i :| 0 <= i < |init| && init[i].name == name && Admit(init[i]) == Accepted(Table(init).value[name]);
      assert ms[i] == init[i];
    }
  }

  /** reflect.Indirect(rcvr).Type().Name(): the name after one level of pointer. */
  function ServiceTypeName(t: Type): string
  {
    match t
    case Pointer(Named(name, _, _), _) => name
    case Pointer(Pointer(_, _), _) => ""
    case Named(name, _, _) => name
  }

  /** RPCService: its name and its method table. */
  class RPCService {
    var name: string
    var methods: map<string, ServiceMethod>

    constructor (name: string)
      ensures this.name == name && methods == map[]
    {
      this.name := name;
      methods := map[];
    }

    /** MethodByName: None for a name that is not registered. */
    function MethodByName(name: string): (r: Option<ServiceMethod>)
      reads this
      ensures r.Some? <==> name in methods
      ensures r.Some? ==> r.value == methods[name]
    {
      if name in methods then Some(methods[name]) else None
    }

    /** Methods: every registered method once, in the order the map iteration picks. */
    method Methods() returns (items: seq<ServiceMethod>)
      ensures |items| == |methods|
      ensures forall i :: 0 <= i < |items| ==> exists k :: k in methods && methods[k] == items[i]
      ensures forall k :: k in methods ==> exists i :: 0 <= i < |items| && items[i] == methods[k]
    {
      var m := methods;
      ghost var keys;
      items, keys := CollectValues(m);
      forall k | k in m
        ensures exists i :: 0 <= i < |items| && items[i] == m[k]
      {
        var i :| 0 <= i < |keys| && keys[i] == k;
        assert items[i] == m[k];
      }
    }
  }

  /** The loop of Methods: one value per key, each key visited once, in the order the map
      iteration picks (`keys`). */
  method CollectValues<K, V>(m: map<K, V>) returns (items: seq<V>, ghost keys: seq<K>)
    ensures |items| == |keys| == |m|
    ensures forall i :: 0 <= i < |keys| ==> keys[i] in m && items[i] == m[keys[i]]
    ensures forall k :: k in m ==> k in keys
  {
    items := [];
    keys := [];
    var todo := m.Keys;
    ghost var done: set<K> := {};
    while todo != {}
      invariant todo + done == m.Keys && todo !! done
      invariant |items| == |keys| == |done|
      invariant forall i :: 0 <= i < |keys| ==> keys[i] in done && items[i] == m[keys[i]]
      invariant forall k :: k in done ==> k in keys
      decreases todo
    {
      var k :| k in todo;
      items := items + [m[k]];
      keys := keys + [k];
      todo := todo - {k};
      done := done + {k};
    }
    assert done == m.Keys;
  }

  /** register: an unexported type name is an error; a panicking method signature is reported
      as BadSignature; otherwise a fresh service named after the type holds the method table. */
  method Register(rcvr: Receiver) returns (s: RPCService?, err: Option<RegisterError>)
    ensures err.None? <==> s != null
    ensures err.None? <==> IsExported(ServiceTypeName(rcvr.typ)) && Table(rcvr.methods).Some?
    ensures !IsExported(ServiceTypeName(rcvr.typ)) ==> s == null && err == Some(NoServiceName(rcvr.typ))
    ensures IsExported(ServiceTypeName(rcvr.typ)) && Table(rcvr.methods).None? ==> s == null && err.value.BadSignature?
    ensures s != null ==> fresh(s) && s.name == ServiceTypeName(rcvr.typ) && Table(rcvr.methods) == Some(s.methods)
  {
    var name := ServiceTypeName(rcvr.typ);
    if !IsExported(name) {
      return null, Some(NoServiceName(rcvr.typ));
    }
    var svc := new RPCService(name);
    var i := 0;
    while i < |rcvr.methods|
      invariant 0 <= i <= |rcvr.methods|
      invariant svc.name == name
      invariant Table(rcvr.methods[..i]) == Some(svc.methods)
    {
      var m := rcvr.methods[i];
      assert rcvr.methods[..i + 1][..i] == rcvr.methods[..i];
      var admitted := Admit(m);
      if admitted.Fatal? {
        assert Table(rcvr.methods[..i + 1]).None?;
        TableFatal(rcvr.methods[..i + 1]);
        var j :| 0 <= j < i + 1 && Admit(rcvr.methods[..i + 1][j]).Fatal?;
        assert Admit(rcvr.methods[j]).Fatal?;
        TableFatal(rcvr.methods);
        return null, Some(BadSignature(m.name));
      }
      if admitted.Accepted? {
        svc.methods := svc.methods[m.name := admitted.sm];
      }
      i := i + 1;
    }
    assert rcvr.methods[..i] == rcvr.methods;
    return svc, None;
  }

  /** ServiceMethod.call: any result count but two is an error; an error in the second result
      gives no reply and that error; otherwise the first result with no error. A second result
      that is neither nil nor an error would make Go's type assertion panic; Admit only accepts
      methods whose second result is an error, so that case cannot arise for a registered
      method, and the model answers it with an error. */
  function Call(sm: ServiceMethod, ctx: Context, req: Value): (r: Reply)
    ensures r.err.Some? ==> r.value == Nil
    ensures r.err.None? ==> |sm.sig.call(ctx, req)| == 2 && sm.sig.call(ctx, req)[1] == Nil &&
                            r.value == sm.sig.call(ctx, req)[0]
    ensures |sm.sig.call(ctx, req)| == 2 && sm.sig.call(ctx, req)[1].ErrorValue? ==>
              r.err == Some(sm.sig.call(ctx, req)[1].err)
    ensures |sm.sig.call(ctx, req)| == 2 && sm.sig.call(ctx, req)[1] == Nil ==>
              r == Reply(sm.sig.call(ctx, req)[0], None)
  {
    var res := sm.sig.call(ctx, req);
    if |res| != 2 then Reply(Nil, Some(PlainError("response length not equal 2")))
    else
      match res[1]
      case Nil => Reply(res[0], None)
      case ErrorValue(e) => Reply(Nil, Some(e))
      case _ => Reply(Nil, Some(PlainError("interface conversion: value is not error")))
  }
}

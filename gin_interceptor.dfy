/** The interceptor chain of the gateway. A handler takes a context and a request to a result;
    an interceptor also receives the next handler and decides whether and how to call it. */
module GinInterceptor {
  import opened Seqs

  type HandleFunc<!C, !Q, R> = (C, Q) -> R

  type Interceptor<!C, !Q, !R> = (C, Q, (C, Q) -> R) -> R

  /** NopInterceptor: calls the next handler with the same context and request. */
  function Nop<C, Q, R>(): Interceptor<C, Q, R>
  {
    (c: C, q: Q, next: (C, Q) -> R) => next(c, q)
  }

  /** buildChain: the handler that runs `current` with `next` as what comes after it. */
  function Wrap<C, Q, R>(current: Interceptor<C, Q, R>, next: HandleFunc<C, Q, R>): HandleFunc<C, Q, R>
  {
    (c: C, q: Q) => current(c, q, next)
  }

  /** The chain as a right fold over the interceptors, with the handler as the seed. */
  function Fold<C, Q, R>(interceptors: seq<Interceptor<C, Q, R>>, handler: HandleFunc<C, Q, R>): HandleFunc<C, Q, R>
  {
    if |interceptors| == 0 then handler else Wrap(interceptors[0], Fold(interceptors[1..], handler))
  }

  /** The loop inside ChainInterceptors: starting from the handler, wrap the interceptors from
      the last one back to the first. The result is the right fold. */
  method BuildChain<C, Q, R>(interceptors: seq<Interceptor<C, Q, R>>, handler: HandleFunc<C, Q, R>)
    returns (chain: HandleFunc<C, Q, R>)
    ensures chain == Fold(interceptors, handler)
  {
    chain := handler;
    var i := |interceptors|;
    while i > 0
      invariant 0 <= i <= |interceptors|
      invariant chain == Fold(interceptors[i..], handler)
    {
      i := i - 1;
      assert interceptors[i..][1..] == interceptors[i + 1..];
      chain := Wrap(interceptors[i], chain);
    }
  }

  /** ChainInterceptors: one interceptor that runs the whole chain around the handler it is given. */
  function ChainInterceptors<C, Q, R>(interceptors: seq<Interceptor<C, Q, R>>): Interceptor<C, Q, R>
  {
    (c: C, q: Q, handler: (C, Q) -> R) => Fold(interceptors, handler)(c, q)
  }

  lemma ChainUnfold<C, Q, R>(interceptors: seq<Interceptor<C, Q, R>>, c: C, q: Q, handler: HandleFunc<C, Q, R>)
    ensures ChainInterceptors(interceptors)(c, q, handler) == Fold(interceptors, handler)(c, q)
  {
    var f := ChainInterceptors(interceptors);
    assert f(c, q, handler) == Fold(interceptors, handler)(c, q);
  }

  lemma FoldUnfold<C, Q, R>(interceptors: seq<Interceptor<C, Q, R>>, c: C, q: Q, handler: HandleFunc<C, Q, R>)
    requires |interceptors| > 0
    ensures Fold(interceptors, handler)(c, q) == interceptors[0](c, q, Fold(interceptors[1..], handler))
  {
    var w := Wrap(interceptors[0], Fold(interceptors[1..], handler));
    assert w(c, q) == interceptors[0](c, q, Fold(interceptors[1..], handler));
  }

  /** An empty chain is the handler itself. */
  lemma ChainEmpty<C, Q, R>(c: C, q: Q, handler: HandleFunc<C, Q, R>)
    ensures ChainInterceptors([])(c, q, handler) == handler(c, q)
  {
    ChainUnfold([], c, q, handler);
  }

  /** The default chain, [NopInterceptor], behaves as the handler. */
  lemma ChainNop<C, Q, R>(c: C, q: Q, handler: HandleFunc<C, Q, R>)
    ensures ChainInterceptors([Nop()])(c, q, handler) == handler(c, q)
  {
    var nops := [Nop<C, Q, R>()];
    ChainUnfold(nops, c, q, handler);
    FoldUnfold(nops, c, q, handler);
    assert nops[1..] == [];
    var n := Nop<C, Q, R>();
    assert n(c, q, handler) == handler(c, q);
  }

  /** The first interceptor is outermost: it runs with the chain of the remaining interceptors
      as its next handler. */
  lemma ChainOutermost<C, Q, R>(interceptors: seq<Interceptor<C, Q, R>>, c: C, q: Q, handler: HandleFunc<C, Q, R>)
    requires |interceptors| > 0
    ensures ChainInterceptors(interceptors)(c, q, handler)
         == interceptors[0](c, q, Fold(interceptors[1..], handler))
    ensures forall c': C, q': Q ::
              Fold(interceptors[1..], handler)(c', q') == ChainInterceptors(interceptors[1..])(c', q', handler)
  {
    ChainUnfold(interceptors, c, q, handler);
    FoldUnfold(interceptors, c, q, handler);
    forall c': C, q': Q
      ensures Fold(interceptors[1..], handler)(c', q') == ChainInterceptors(interceptors[1..])(c', q', handler)
    {
      ChainUnfold(interceptors[1..], c', q', handler);
    }
  }

  /** A first interceptor that does not call next for this context and request decides the
      result alone: neither the later interceptors nor the handler can change it. */
  lemma ShortCircuit<C, Q, R>(
      interceptors: seq<Interceptor<C, Q, R>>, rest: seq<Interceptor<C, Q, R>>,
      c: C, q: Q, handler: HandleFunc<C, Q, R>, other: HandleFunc<C, Q, R>)
    requires |interceptors| > 0
    requires forall n1: (C, Q) -> R, n2: (C, Q) -> R :: interceptors[0](c, q, n1) == interceptors[0](c, q, n2)
    ensures ChainInterceptors(interceptors)(c, q, handler) == interceptors[0](c, q, other)
    ensures ChainInterceptors(interceptors)(c, q, handler)
         == ChainInterceptors([interceptors[0]] + rest)(c, q, other)
  {
    var other' := [interceptors[0]] + rest;
    assert other'[0] == interceptors[0];
    ChainUnfold(interceptors, c, q, handler);
    FoldUnfold(interceptors, c, q, handler);
    ChainUnfold(other', c, q, other);
    FoldUnfold(other', c, q, other);
  }

  // ---- Recording interceptors: the order in which the chain enters and leaves. ----

  /** An interceptor that records its entry, calls next, and records its exit. */
  function Recorder<C, Q>(name: string): Interceptor<C, Q, seq<string>>
  {
    (c: C, q: Q, next: (C, Q) -> seq<string>) => [name + "-enter"] + next(c, q) + [name + "-exit"]
  }

  function Recorders<C, Q>(names: seq<string>): (r: seq<Interceptor<C, Q, seq<string>>>)
    ensures |r| == |names|
  {
    if |names| == 0 then [] else [Recorder(names[0])] + Recorders(names[1..])
  }

  function Enters(names: seq<string>): seq<string>
  {
    if |names| == 0 then [] else [names[0] + "-enter"] + Enters(names[1..])
  }

  function Exits(names: seq<string>): seq<string>
  {
    if |names| == 0 then [] else Exits(names[1..]) + [names[0] + "-exit"]
  }

  /** Recording interceptors in front of any chain enter in declaration order before it runs
      and exit in reverse order after it. */
  lemma {:induction false} RecordersAround<C, Q>(
      names: seq<string>, tail: seq<Interceptor<C, Q, seq<string>>>,
      c: C, q: Q, handler: HandleFunc<C, Q, seq<string>>)
    ensures Fold(Recorders(names) + tail, handler)(c, q)
         == Enters(names) + Fold(tail, handler)(c, q) + Exits(names)
  {
    if |names| > 0 {
      var r := Recorder<C, Q>(names[0]);
      var rs := Recorders<C, Q>(names[1..]);
      assert Recorders<C, Q>(names) == [r] + rs;
      var all := [r] + rs + tail;
      ConsAppend(r, rs, tail);
      RecordersAround(names[1..], tail, c, q, handler);
      FoldUnfold(all, c, q, handler);
      var next := Fold(rs + tail, handler);
      var e, x := names[0] + "-enter", names[0] + "-exit";
      assert r(c, q, next) == [e] + next(c, q) + [x];
      Bracket(e, Enters(names[1..]), Fold(tail, handler)(c, q), Exits(names[1..]), x);
    } else {
      assert Recorders<C, Q>(names) + tail == tail;
    }
  }

  /** Two recording interceptors I1, I2 around a handler that records "handler". */
  lemma TraceOfTwo<C, Q>(c: C, q: Q)
    ensures ChainInterceptors(Recorders<C, Q>(["I1", "I2"]))(c, q, (c': C, q': Q) => ["handler"])
         == ["I1-enter", "I2-enter", "handler", "I2-exit", "I1-exit"]
  {
    var h := (c': C, q': Q) => ["handler"];
    RecordersAround<C, Q>(["I1", "I2"], [], c, q, h);
    ChainUnfold(Recorders<C, Q>(["I1", "I2"]), c, q, h);
    assert Recorders<C, Q>(["I1", "I2"]) + [] == Recorders<C, Q>(["I1", "I2"]);
    assert ["I1", "I2"][1..] == ["I2"];
    assert ["I2"][1..] == [];
    assert "I1" + "-enter" == "I1-enter" && "I2" + "-enter" == "I2-enter";
    assert "I1" + "-exit" == "I1-exit" && "I2" + "-exit" == "I2-exit";
    assert Enters(["I2"]) == ["I2-enter"] + Enters([]);
    assert Exits(["I2"]) == Exits([]) + ["I2-exit"];
    assert Enters(["I1", "I2"]) == ["I1-enter", "I2-enter"];
    assert Exits(["I1", "I2"]) == ["I2-exit", "I1-exit"];
    assert h(c, q) == ["handler"];
  }

  /** An interceptor that answers `r` without calling next. */
  function Stop<C, Q, R>(r: R): Interceptor<C, Q, R>
  {
    (c: C, q: Q, next: (C, Q) -> R) => r
  }

  /** Behind recording interceptors, a stopping interceptor ends the chain: the trace holds the
      recorders and the stopper's answer, and nothing from later interceptors or the handler. */
  lemma StopHidesRest<C, Q>(
      names: seq<string>, answer: seq<string>, rest: seq<Interceptor<C, Q, seq<string>>>,
      c: C, q: Q, handler: HandleFunc<C, Q, seq<string>>)
    ensures ChainInterceptors(Recorders<C, Q>(names) + [Stop(answer)] + rest)(c, q, handler)
         == Enters(names) + answer + Exits(names)
  {
    var tail := [Stop<C, Q, seq<string>>(answer)] + rest;
    RecordersAround(names, tail, c, q, handler);
    ChainUnfold(Recorders<C, Q>(names) + tail, c, q, handler);
    FoldUnfold(tail, c, q, handler);
    assert tail[0] == Stop(answer);
    var st := Stop<C, Q, seq<string>>(answer);
    assert st(c, q, Fold(tail[1..], handler)) == answer;
    assert Recorders<C, Q>(names) + [Stop(answer)] + rest == Recorders<C, Q>(names) + ([Stop(answer)] + rest);
  }
}

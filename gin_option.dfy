/** The gateway's functional options: each With* option sets one field of Options, and
    NewHandler applies them in order on top of its defaults. */
module GinOption {
  import opened GinValues
  import opened GinInterceptor
  import GinCodec

  /** Codec: the default JSON codec, or a user codec given by its encoding. */
  datatype Codec = DefaultCodec | CustomCodec(encode: Value -> GinCodec.Response)

  type Chain = seq<Interceptor<Context, Value, Reply>>

  /** Options, as a value. */
  datatype Settings = Settings(codec: Codec, serviceName: string, protoName: string, prefix: string, interceptors: Chain)

  /** The five With* options. */
  datatype Opt =
    | WithServiceName(name: string)
    | WithProtoName(name: string)
    | WithCodec(codec: Codec)
    | WithInterceptor(chain: Chain)
    | WithPrefix(prefix: string)

  datatype Field = CodecField | ServiceNameField | ProtoNameField | PrefixField | InterceptorsField

  datatype FieldValue = CodecValue(c: Codec) | TextValue(t: string) | ChainValue(ch: Chain)

  function FieldOf(o: Opt): Field
  {
    match o
    case WithServiceName(_) => ServiceNameField
    case WithProtoName(_) => ProtoNameField
    case WithCodec(_) => CodecField
    case WithInterceptor(_) => InterceptorsField
    case WithPrefix(_) => PrefixField
  }

  function Payload(o: Opt): FieldValue
  {
    match o
    case WithServiceName(n) => TextValue(n)
    case WithProtoName(n) => TextValue(n)
    case WithCodec(c) => CodecValue(c)
    case WithInterceptor(ch) => ChainValue(ch)
    case WithPrefix(p) => TextValue(p)
  }

  function Get(s: Settings, f: Field): FieldValue
  {
    match f
    case CodecField => CodecValue(s.codec)
    case ServiceNameField => TextValue(s.serviceName)
    case ProtoNameField => TextValue(s.protoName)
    case PrefixField => TextValue(s.prefix)
    case InterceptorsField => ChainValue(s.interceptors)
  }

  /** What an option's closure does to *Options: it sets its own field to its argument and
      leaves every other field as it was. */
  function Update(s: Settings, o: Opt): (r: Settings)
    ensures Get(r, FieldOf(o)) == Payload(o)
    ensures forall f :: f != FieldOf(o) ==> Get(r, f) == Get(s, f)
  {
    match o
    case WithServiceName(n) => s.(serviceName := n)
    case WithProtoName(n) => s.(protoName := n)
    case WithCodec(c) => s.(codec := c)
    case WithInterceptor(ch) => s.(interceptors := ch)
    case WithPrefix(p) => s.(prefix := p)
  }

  /** WithInterceptor replaces the list: the default NopInterceptor does not survive it. */
  lemma WithInterceptorReplaces(s: Settings, ch: Chain)
    ensures Update(s, WithInterceptor(ch)).interceptors == ch
    ensures |Update(s, WithInterceptor(ch)).interceptors| == |ch|
    ensures ch == [] ==> Update(s, WithInterceptor(ch)).interceptors == []
  {
  }

  /** The options applied in order. */
  function ApplyAll(opts: seq<Opt>, s: Settings): Settings
  {
    if |opts| == 0 then s else Update(ApplyAll(opts[..|opts| - 1], s), opts[|opts| - 1])
  }

  /** The last option for a field wins; a field no option names keeps its value. */
  lemma {:induction false} LastWins(opts: seq<Opt>, s: Settings, f: Field)
    ensures (forall i :: 0 <= i < |opts| ==> FieldOf(opts[i]) != f) ==> Get(ApplyAll(opts, s), f) == Get(s, f)
    ensures forall i :: 0 <= i < |opts| && FieldOf(opts[i]) == f &&
                        (forall j :: i < j < |opts| ==> FieldOf(opts[j]) != f) ==>
                          Get(ApplyAll(opts, s), f) == Payload(opts[i])
  {
    if |opts| > 0 {
      var init := opts[..|opts| - 1];
      LastWins(init, s, f);
      forall i | 0 <= i < |opts| - 1
        ensures init[i] == opts[i]
      {
      }
    }
  }

  /** NewHandler's defaults: the default codec and a chain of one NopInterceptor. */
  function Defaults(): Settings
  {
    Settings(DefaultCodec, "", "", "", [Nop()])
  }

  /** Without WithInterceptor, the handler's chain is [NopInterceptor], which runs the handler
      unchanged. */
  lemma DefaultChainRunsHandler(opts: seq<Opt>, c: Context, q: Value, h: HandleFunc<Context, Value, Reply>)
    requires forall i :: 0 <= i < |opts| ==> FieldOf(opts[i]) != InterceptorsField
    ensures ApplyAll(opts, Defaults()).interceptors == [Nop()]
    ensures ChainInterceptors(ApplyAll(opts, Defaults()).interceptors)(c, q, h) == h(c, q)
  {
    LastWins(opts, Defaults(), InterceptorsField);
    ChainNop(c, q, h);
  }

  /** Options: the struct the option closures mutate through a pointer. */
  class Options {
    var codec: Codec
    var serviceName: string
    var protoName: string
    var prefix: string
    var interceptors: Chain

    constructor (s: Settings)
      ensures Snapshot() == s
    {
      codec := s.codec;
      serviceName := s.serviceName;
      protoName := s.protoName;
      prefix := s.prefix;
      interceptors := s.interceptors;
    }

    function Snapshot(): Settings
      reads this
    {
      Settings(codec, serviceName, protoName, prefix, interceptors)
    }

    /** o(&opt): run one option's closure. */
    method Apply(o: Opt)
      modifies this
      ensures Snapshot() == Update(old(Snapshot()), o)
    {
      match o {
        case WithServiceName(n) => serviceName := n;
        case WithProtoName(n) => protoName := n;
        case WithCodec(c) => codec := c;
        case WithInterceptor(ch) => interceptors := ch;
        case WithPrefix(p) => prefix := p;
      }
    }
  }
}

/** The options of the connection pool (util/pool/options.go): three setters, each a
    closure writing one field of `*Options`. */
module PoolOptions {

  import Common

  /** `pool.Option`, by the setter that made it. */
  datatype Option = Size(size: int) | Transport(transport: Common.Component) | TTL(ttl: int)

  /** `pool.Options` as a value; the TTL is a nanosecond count. */
  datatype Value = Value(transport: Common.Component, ttl: int, size: int)

  /** The field each setter writes. */
  datatype Field = SizeF | TransportF | TTLF

  function FieldOf(opt: Option): Field
  {
    match opt
    case Size(_) => SizeF
    case Transport(_) => TransportF
    case TTL(_) => TTLF
  }

  /** What the closure of `opt` does to the record. */
  function ApplySpec(v: Value, opt: Option): Value
  {
    match opt
    case Size(i) => v.(size := i)
    case Transport(t) => v.(transport := t)
    case TTL(t) => v.(ttl := t)
  }

  /** A list of options applied in order. */
  function ApplyAll(v: Value, opts: seq<Option>): Value
    decreases |opts|
  {
    if opts == [] then v else ApplyAll(ApplySpec(v, opts[0]), opts[1..])
  }

  class Options {
    var transport: Common.Component
    var ttl: int
    var size: int

    function Snapshot(): Value
      reads this
    {
      Value(transport, ttl, size)
    }

    /** The zero `Options{}`. */
    constructor ()
      ensures Snapshot() == Value(Common.Nil, 0, 0)
    {
      transport, ttl, size := Common.Nil, 0, 0;
    }

    /** Runs the closure of `opt` on this record: one field is written, the other two are kept. */
    method Apply(opt: Option)
      modifies this
      ensures Snapshot() == ApplySpec(old(Snapshot()), opt)
      ensures opt.Size? ==> size == opt.size && transport == old(transport) && ttl == old(ttl)
      ensures opt.Transport? ==> transport == opt.transport && size == old(size) && ttl == old(ttl)
      ensures opt.TTL? ==> ttl == opt.ttl && size == old(size) && transport == old(transport)
    {
      match opt
      case Size(i) => size := i;
      case Transport(t) => transport := t;
      case TTL(t) => ttl := t;
    }
  }

  /** Each setter changes exactly its own field. */
  lemma ApplyFrame(v: Value, opt: Option)
    ensures var w := ApplySpec(v, opt);
      && (w.size != v.size ==> FieldOf(opt) == SizeF)
      && (w.transport != v.transport ==> FieldOf(opt) == TransportF)
      && (w.ttl != v.ttl ==> FieldOf(opt) == TTLF)
      && w == match opt case Size(i) => v.(size := i) case Transport(t) => v.(transport := t) case TTL(t) => v.(ttl := t)
  {
  }

  /** Setters on different fields commute. */
  lemma Commute(v: Value, a: Option, b: Option)
    requires FieldOf(a) != FieldOf(b)
    ensures ApplySpec(ApplySpec(v, a), b) == ApplySpec(ApplySpec(v, b), a)
  {
  }

  /** Of two setters on the same field, the later one wins. */
  lemma SameFieldLastWins(v: Value, a: Option, b: Option)
    requires FieldOf(a) == FieldOf(b)
    ensures ApplySpec(ApplySpec(v, a), b) == ApplySpec(v, b)
  {
  }

  /** The value of the last option in `opts` setting `f`, if any. */
  function LastFor(opts: seq<Option>, f: Field): (r: Common.Option<Option>)
    ensures r.Some? ==> FieldOf(r.value) == f && r.value in opts
    ensures r.None? <==> forall i :: 0 <= i < |opts| ==> FieldOf(opts[i]) != f
    decreases |opts|
  {
    if opts == [] then Common.None
    else if FieldOf(opts[|opts| - 1]) == f then Common.Some(opts[|opts| - 1])
    else LastFor(opts[..|opts| - 1], f)
  }

  /** A field's value after a list of options is the one the last setter of that field
      gave it, or its starting value when no option sets it. */
  lemma {:induction false} ApplyAllLastWins(v: Value, opts: seq<Option>)
    ensures var w := ApplyAll(v, opts);
      && w.size == (match LastFor(opts, SizeF) case Some(o) => o.size case None => v.size)
      && w.transport == (match LastFor(opts, TransportF) case Some(o) => o.transport case None => v.transport)
      && w.ttl == (match LastFor(opts, TTLF) case Some(o) => o.ttl case None => v.ttl)
    decreases |opts|
  {
    if opts != [] {
      var init := opts[..|opts| - 1];
      var last := opts[|opts| - 1];
      assert opts == init + [last];
      ApplyAllSnoc(v, init, last);
      ApplyAllLastWins(v, init);
    }
  }

  lemma {:induction false} ApplyAllSnoc(v: Value, init: seq<Option>, last: Option)
    ensures ApplyAll(v, init + [last]) == ApplySpec(ApplyAll(v, init), last)
    decreases |init|
  {
    if init == [] {
      assert [last][1..] == [];
    } else {
      assert (init + [last])[1..] == init[1..] + [last];
      ApplyAllSnoc(ApplySpec(v, init[0]), init[1..], last);
    }
  }
}

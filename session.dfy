/** session.go: a bag of named values per unit of execution (a goroutine,
    identified here by an explicit `UnitId`), created on demand, read and
    written by name, and wrapped around a handler by `WithSession` and the
    `UseSession` middleware. */
module Session {
  import opened Common
  import Conf

  /** The goroutine a call runs on (what gls.GoID identifies). */
  type UnitId = nat

  /** A value stored in a session: nil, a string, the `**Config` that
      `UseSession` stores, or any other Go value (told apart by a tag). */
  datatype Value =
    | Nil
    | Text(s: string)
    | ConfigRef(config: Conf.Config)
    | Opaque(tag: nat)

  /** `Session.data`. */
  type Bag = map<string, Value>

  /** The key under which `UseSession` stores the configuration. */
  const ConfigName: string := "_config_"

  /** Reading a Go map: the stored value, or nil for a missing key. */
  function Find(bag: Bag, name: string): (v: Value)
    ensures name !in bag ==> v == Nil
    ensures name in bag ==> v == bag[name]
  {
    if name in bag then bag[name] else Nil
  }

  /** The unit-local table after `NewSession` on unit `u`. */
  function Created(bags: map<UnitId, Bag>, u: UnitId): (r: map<UnitId, Bag>)
    ensures u in r && r[u] == (if u in bags then bags[u] else map[])
    ensures forall w :: w != u ==> (w in r <==> w in bags)
    ensures forall w :: w != u && w in bags ==> r[w] == bags[w]
  {
    if u in bags then bags else bags[u := map[]]
  }

  /** The unit-local table after `SessionSet(name, v)` on unit `u`. */
  function Assign(bags: map<UnitId, Bag>, u: UnitId, name: string, v: Value): (r: map<UnitId, Bag>)
    requires u in bags
    ensures r.Keys == bags.Keys
    ensures r[u].Keys == bags[u].Keys + {name}
    ensures forall w :: w in bags && w != u ==> r[w] == bags[w]
  {
    bags[u := bags[u][name := v]]
  }

  /** Creating a session twice is the same as creating it once. */
  lemma CreatedIdempotent(bags: map<UnitId, Bag>, u: UnitId)
    ensures Created(Created(bags, u), u) == Created(bags, u)
  {
  }

  /** A fresh session holds no value: every name reads as nil. */
  lemma FreshBagIsEmpty(bags: map<UnitId, Bag>, u: UnitId, name: string)
    requires u !in bags
    ensures Find(Created(bags, u)[u], name) == Nil
  {
  }

  /** Get after set: the name reads back as the value just stored. */
  lemma GetAfterSet(bags: map<UnitId, Bag>, u: UnitId, name: string, v: Value)
    requires u in bags
    ensures Find(Assign(bags, u, name, v)[u], name) == v
  {
  }

  /** A set changes no other name of the same unit and no other unit. */
  lemma SetFrame(bags: map<UnitId, Bag>, u: UnitId, name: string, v: Value, w: UnitId, other: string)
    requires u in bags && w in bags && (w != u || other != name)
    ensures Find(Assign(bags, u, name, v)[w], other) == Find(bags[w], other)
  {
  }

  // ---- what a function run inside a session does with it ----

  /** One session call made by the wrapped function `f`. */
  datatype Op = Get(name: string) | Put(name: string, value: Value)

  predicate Writes(op: Op, name: string)
  {
    op.Put? && op.name == name
  }

  /** What a call returns, given the bag it runs on (`SessionSet` returns
      nothing, shown as nil). */
  function Answer(bag: Bag, op: Op): Value
  {
    match op
    case Get(n) => Find(bag, n)
    case Put(_, _) => Nil
  }

  /** The bag after the calls, in order. */
  function Final(bag: Bag, ops: seq<Op>): Bag
    decreases |ops|
  {
    if |ops| == 0 then bag
    else
      var b := Final(bag, ops[..|ops| - 1]);
      match ops[|ops| - 1]
      case Get(_) => b
      case Put(n, v) => b[n := v]
  }

  /** What each call returned, one entry per call. */
  function Trace(bag: Bag, ops: seq<Op>): (t: seq<Value>)
    ensures |t| == |ops|
    decreases |ops|
  {
    if |ops| == 0 then []
    else Trace(bag, ops[..|ops| - 1]) + [Answer(Final(bag, ops[..|ops| - 1]), ops[|ops| - 1])]
  }

  /** Each call sees the bag left by the calls before it. */
  lemma {:induction false} TraceAt(bag: Bag, ops: seq<Op>, i: nat)
    requires i < |ops|
    ensures Trace(bag, ops)[i] == Answer(Final(bag, ops[..i]), ops[i])
    decreases |ops|
  {
    if i < |ops| - 1 {
      var init := ops[..|ops| - 1];
      TraceAt(bag, init, i);
      assert init[..i] == ops[..i];
      assert init[i] == ops[i];
    }
  }

  /** A name no call writes keeps the value it had before. */
  lemma {:induction false} FinalUntouched(bag: Bag, ops: seq<Op>, name: string)
    requires forall i :: 0 <= i < |ops| ==> !Writes(ops[i], name)
    ensures Find(Final(bag, ops), name) == Find(bag, name)
    decreases |ops|
  {
    if |ops| > 0 {
      var init := ops[..|ops| - 1];
      assert forall i :: 0 <= i < |init| ==> init[i] == ops[i];
      FinalUntouched(bag, init, name);
    }
  }

  /** A name holds the value of the last call that wrote it. */
  lemma {:induction false} FinalLastWrite(bag: Bag, ops: seq<Op>, i: nat, name: string, v: Value)
    requires i < |ops| && ops[i] == Put(name, v)
    requires forall j :: i < j < |ops| ==> !Writes(ops[j], name)
    ensures Find(Final(bag, ops), name) == v
    decreases |ops|
  {
    if i < |ops| - 1 {
      var init := ops[..|ops| - 1];
      assert init[i] == ops[i];
      assert forall j :: i < j < |init| ==> init[j] == ops[j];
      FinalLastWrite(bag, init, i, name, v);
    }
  }

  /** One more call: the trace gains that call's answer on the bag left so
      far, and the bag takes its write, if any. */
  lemma FinalTraceStep(bag: Bag, ops: seq<Op>, i: nat)
    requires i < |ops|
    ensures Trace(bag, ops[..i + 1]) == Trace(bag, ops[..i]) + [Answer(Final(bag, ops[..i]), ops[i])]
    ensures Final(bag, ops[..i + 1]) ==
              match ops[i]
              case Get(_) => Final(bag, ops[..i])
              case Put(n, v) => Final(bag, ops[..i])[n := v]
  {
    assert ops[..i + 1][..i] == ops[..i];
  }

  /** The unit-local storage of every unit (the gls table). */
  class SessionStore {
    var bags: map<UnitId, Bag>

    constructor ()
      ensures bags == map[]
    {
      bags := map[];
    }

    /** `GetSession`: the current unit's session, or nil when it has none. */
    function GetSession(u: UnitId): (s: Option<Bag>)
      reads this
      ensures s.None? <==> u !in bags
      ensures s.Some? ==> s.value == bags[u]
    {
      if u in bags then Some(bags[u]) else None
    }

    /** `NewSession`: the existing session unchanged, or a new empty one
        stored for the unit. */
    method NewSession(u: UnitId) returns (s: Bag)
      modifies this
      ensures bags == Created(old(bags), u)
      ensures s == bags[u]
      ensures old(u in bags) ==> s == old(bags[u])
      ensures old(u !in bags) ==> s == map[]
    {
      var existing := GetSession(u);
      if existing.None? {
        bags := bags[u := map[]];
        s := map[];
      } else {
        s := existing.value;
      }
    }

    /** `SessionGet`: the session is dereferenced without a nil check, so
        the unit must have one. */
    function SessionGet(u: UnitId, name: string): (v: Value)
      reads this
      requires u in bags
      ensures name !in bags[u] ==> v == Nil
      ensures name in bags[u] ==> v == bags[u][name]
    {
      Find(bags[u], name)
    }

    /** `SessionSet`: writes into the existing session in place. */
    method SessionSet(u: UnitId, name: string, v: Value)
      modifies this
      requires u in bags
      ensures bags == Assign(old(bags), u, name, v)
      ensures SessionGet(u, name) == v
    {
      bags := bags[u := bags[u][name := v]];
    }

    /** `WithSession(f)`: a session is made for the unit and then `f` runs,
        here as the session calls it makes; every one of them finds a
        session, since `NewSession` ran first. */
    method WithSession(u: UnitId, ops: seq<Op>) returns (trace: seq<Value>)
      modifies this
      ensures bags == old(bags)[u := Final(Created(old(bags), u)[u], ops)]
      ensures trace == Trace(Created(old(bags), u)[u], ops)
    {
      var start := NewSession(u);
      trace := [];
      for i := 0 to |ops|
        invariant bags == old(bags)[u := Final(start, ops[..i])]
        invariant trace == Trace(start, ops[..i])
      {
        FinalTraceStep(start, ops, i);
        match ops[i]
        case Get(n) =>
          var v := SessionGet(u, n);
          trace := trace + [v];
        case Put(n, v) =>
          SessionSet(u, n, v);
          trace := trace + [Nil];
      }
      assert ops[..|ops|] == ops;
    }

    /** `SessionConfig`: the stored configuration, or nil when the value
        under "_config_" is not one. */
    function SessionConfig(u: UnitId): (c: Option<Conf.Config>)
      reads this
      requires u in bags
      ensures c.Some? <==> SessionGet(u, ConfigName).ConfigRef?
      ensures c.Some? ==> c.value == SessionGet(u, ConfigName).config
    {
      match SessionGet(u, ConfigName)
      case ConfigRef(cfg) => Some(cfg)
      case _ => None
    }

    /** The `UseSession(config)` middleware: inside a session, the
        configuration is stored under "_config_" and then the rest of the
        chain (`c.Next()`) runs. Unless the chain itself overwrites
        "_config_", `SessionConfig` returns that configuration afterwards
        and every read of "_config_" during the chain sees it. */
    method UseSession(u: UnitId, config: Conf.Config, next: seq<Op>) returns (trace: seq<Value>)
      modifies this
      ensures var ops := [Put(ConfigName, ConfigRef(config))] + next;
              bags == old(bags)[u := Final(Created(old(bags), u)[u], ops)]
              && trace == Trace(Created(old(bags), u)[u], ops)
      ensures (forall i :: 0 <= i < |next| ==> !Writes(next[i], ConfigName)) ==>
                SessionConfig(u) == Some(config)
                && forall i :: 0 <= i < |next| && next[i] == Get(ConfigName) ==> trace[i + 1] == ConfigRef(config)
    {
      var ops := [Put(ConfigName, ConfigRef(config))] + next;
      trace := WithSession(u, ops);
      if forall i :: 0 <= i < |next| ==> !Writes(next[i], ConfigName) {
        var start := Created(old(bags), u)[u];
        assert forall j :: 0 < j < |ops| ==> ops[j] == next[j - 1];
        FinalLastWrite(start, ops, 0, ConfigName, ConfigRef(config));
        forall i | 0 <= i < |next| && next[i] == Get(ConfigName)
          ensures trace[i + 1] == ConfigRef(config)
        {
          TraceAt(start, ops, i + 1);
          FinalLastWrite(start, ops[..i + 1], 0, ConfigName, ConfigRef(config));
        }
      }
    }
  }
}

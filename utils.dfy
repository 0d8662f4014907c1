/** utils.go: walking a decoded YAML tree along a key path (`extract`) and
    the template name under which an HTTP status's error page is registered
    (`errorName`). */
module Utils {
  import opened Common
  import opened Text

  /** A value as gopkg.in/yaml.v2 decodes it into interface{}: nil, scalars,
      a sequence ([]interface{}) or a mapping (map[interface{}]interface{},
      whose keys are modelled as strings: `extract` only ever looks up
      string keys). */
  datatype Node =
    | Null
    | Str(s: string)
    | Int(i: int)
    | Bool(b: bool)
    | List(items: seq<Node>)
    | Map(entries: map<string, Node>)

  /** The four ways `extract` fails. */
  datatype ExtractError =
    | NilInput                   // "can't extract nil"
    | InputNotAMap               // "%v is not a map"
    | KeyNotFound(name: string)  // "not found [%v] in map"
    | EntryNotAMap(name: string) // "[%v] is not a map"

  /** Reference definition of the walk from an already-opened mapping. */
  function Walk(m: map<string, Node>, names: seq<string>): Result<Node, ExtractError>
    decreases |names|
  {
    if |names| == 0 then Success(Null)
    else if names[0] !in m then Failure(KeyNotFound(names[0]))
    else if |names| == 1 then Success(m[names[0]])
    else if m[names[0]].Map? then Walk(m[names[0]].entries, names[1..])
    else Failure(EntryNotAMap(names[0]))
  }

  /** Reference definition of `extract(out, names...)`. */
  function Lookup(out: Node, names: seq<string>): Result<Node, ExtractError>
  {
    if out.Null? then Failure(NilInput)
    else if !out.Map? then Failure(InputNotAMap)
    else Walk(out.entries, names)
  }

  /** `extract`: the loop that re-binds `tmp` to each nested mapping and
      returns as soon as the last key is reached or a step fails. */
  method Extract(out: Node, names: seq<string>) returns (r: Result<Node, ExtractError>)
    ensures r == Lookup(out, names)
    ensures out.Null? ==> r == Failure(NilInput)
    ensures !out.Null? && !out.Map? ==> r == Failure(InputNotAMap)
    ensures out.Map? && names == [] ==> r == Success(Null)
    ensures out.Map? && |names| == 1 ==>
              r == if names[0] in out.entries then Success(out.entries[names[0]])
                   else Failure(KeyNotFound(names[0]))
  {
    if out.Null? {
      return Failure(NilInput);
    }
    if !out.Map? {
      return Failure(InputNotAMap);
    }
    var tmp := out.entries;
    for i := 0 to |names|
      invariant 0 < i ==> i < |names|
      invariant Walk(tmp, names[i..]) == Lookup(out, names)
    {
      var name := names[i];
      if name !in tmp {
        return Failure(KeyNotFound(name));
      }
      var t1 := tmp[name];
      if i == |names| - 1 {
        return Success(t1);
      }
      if !t1.Map? {
        return Failure(EntryNotAMap(name));
      }
      assert names[i..][1..] == names[i + 1..];
      tmp := t1.entries;
    }
    return Success(Null);
  }

  lemma {:induction false} WalkStep(m: map<string, Node>, names: seq<string>, k: string)
    requires |names| > 0 && Walk(m, names).Success? && Walk(m, names).value.Map?
    ensures var inner := Walk(m, names).value.entries;
            Walk(m, names + [k]) == if k in inner then Success(inner[k]) else Failure(KeyNotFound(k))
    decreases |names|
  {
    assert (names + [k])[0] == names[0];
    if |names| > 1 {
      assert (names + [k])[1..] == names[1..] + [k];
      WalkStep(m[names[0]].entries, names[1..], k);
    }
  }

  /** One more key below a mapping the path reaches: found exactly when that
      mapping holds the key, and then it is the value stored there. */
  lemma LookupStep(out: Node, names: seq<string>, k: string)
    requires |names| > 0 && Lookup(out, names).Success? && Lookup(out, names).value.Map?
    ensures var inner := Lookup(out, names).value.entries;
            Lookup(out, names + [k]) == if k in inner then Success(inner[k]) else Failure(KeyNotFound(k))
  {
    WalkStep(out.entries, names, k);
  }

  lemma {:induction false} WalkThroughScalar(m: map<string, Node>, names: seq<string>, k: string)
    requires |names| > 0 && Walk(m, names).Success? && !Walk(m, names).value.Map?
    ensures Walk(m, names + [k]) == Failure(EntryNotAMap(names[|names| - 1]))
    decreases |names|
  {
    assert (names + [k])[0] == names[0];
    if |names| > 1 {
      assert (names + [k])[1..] == names[1..] + [k];
      WalkThroughScalar(m[names[0]].entries, names[1..], k);
    }
  }

  /** A key below a value that is not a mapping fails with "[name] is not a
      map", naming the last key that was found. */
  lemma LookupThroughScalar(out: Node, names: seq<string>, k: string)
    requires |names| > 0 && Lookup(out, names).Success? && !Lookup(out, names).value.Map?
    ensures Lookup(out, names + [k]) == Failure(EntryNotAMap(names[|names| - 1]))
  {
    WalkThroughScalar(out.entries, names, k);
  }

  lemma {:induction false} WalkFailurePersists(m: map<string, Node>, names: seq<string>, more: seq<string>)
    requires Walk(m, names).Failure?
    ensures Walk(m, names + more) == Walk(m, names)
    decreases |names|
  {
    assert (names + more)[0] == names[0];
    if |names| > 1 && names[0] in m && m[names[0]].Map? {
      assert (names + more)[1..] == names[1..] + more;
      WalkFailurePersists(m[names[0]].entries, names[1..], more);
    }
  }

  /** A failure is final: a longer path through the same keys fails with the
      same error (a nil input, a non-map input, a missing key or a non-map
      entry at any level). */
  lemma LookupFailurePersists(out: Node, names: seq<string>, more: seq<string>)
    requires Lookup(out, names).Failure?
    ensures Lookup(out, names + more) == Lookup(out, names)
  {
    if out.Map? {
      WalkFailurePersists(out.entries, names, more);
    }
  }

  /** `errorName`: "__E_" followed by the decimal form of the code. */
  function ErrorName(code: int): (name: string)
    ensures HasPrefix(name, "__E_")
    ensures ParseDecimal(name[4..]) == code
  {
    var name := "__E_" + IntToDecimal(code);
    assert name[4..] == IntToDecimal(code);
    DecimalRoundTrip(code);
    name
  }

  /** Distinct status codes are registered under distinct template names. */
  lemma ErrorNameInjective(a: int, b: int)
    ensures ErrorName(a) == ErrorName(b) <==> a == b
  {
  }
}

/** plushgin/cache.go: the template cache, a thin wrapper around a
    hashicorp/golang-lru cache of at most `max` entries.

    The wrapper only calls `lru.New`, `Get` and `Add`; how the library
    orders and evicts entries is not part of the wrapper. The recency order
    below (least recently used first, moved to the back by `Get` and `Add`,
    the front evicted when a new name does not fit) is an ASSUMPTION about
    that library, kept separate from the facts the wrapper itself
    guarantees. Template contents are bytes, modelled as strings. */
module PlushCache {
  import opened Common

  predicate Distinct(s: seq<string>)
  {
    forall i, j :: 0 <= i < j < |s| ==> s[i] != s[j]
  }

  /** The order with `k` taken out. */
  function Remove(order: seq<string>, k: string): (r: seq<string>)
    ensures forall x :: x in r <==> x in order && x != k
    ensures |r| <= |order|
    decreases |order|
  {
    if |order| == 0 then []
    else (if order[0] == k then [] else [order[0]]) + Remove(order[1..], k)
  }

  /** In a sequence without repeats, taking out a present name shortens
      it by one and keeps it free of repeats. */
  lemma {:induction false} RemoveDistinct(order: seq<string>, k: string)
    requires Distinct(order)
    ensures Distinct(Remove(order, k))
    ensures k in order ==> |Remove(order, k)| == |order| - 1
    ensures k !in order ==> Remove(order, k) == order
    decreases |order|
  {
    if |order| > 0 {
      var tail := order[1..];
      assert Distinct(tail) by {
        forall i, j | 0 <= i < j < |tail| ensures tail[i] != tail[j] {
          assert tail[i] == order[i + 1] && tail[j] == order[j + 1];
        }
      }
      RemoveDistinct(tail, k);
      assert order[0] !in tail by {
        forall j | 0 <= j < |tail| ensures tail[j] != order[0] {
          assert tail[j] == order[j + 1];
        }
      }
      if order[0] != k {
        var r := Remove(order, k);
        assert r == [order[0]] + Remove(tail, k);
        forall i, j | 0 <= i < j < |r| ensures r[i] != r[j] {
          if i == 0 {
            assert r[j] in Remove(tail, k) by { assert r[j] == Remove(tail, k)[j - 1]; }
          } else {
            assert r[i] == Remove(tail, k)[i - 1] && r[j] == Remove(tail, k)[j - 1];
          }
        }
      }
      assert order == [order[0]] + tail;
    }
  }

  /** The library's state: the stored contents and the recency order. */
  datatype LruState = LruState(entries: map<string, string>, order: seq<string>)

  /** What a live cache (one made with `max` > 0) keeps true: every stored
      name appears once in the order, and there are at most `max`. */
  ghost predicate LruValid(s: LruState, max: int)
  {
    && max > 0
    && Distinct(s.order)
    && (forall x :: x in s.entries <==> x in s.order)
    && |s.entries| == |s.order|
    && |s.order| <= max
  }

  /** `Get`: the stored content, if any, and the name becomes the most
      recently used. */
  function LruGet(s: LruState, k: string): (r: (LruState, Option<string>))
    ensures r.0.entries == s.entries
    ensures r.1 == if k in s.entries then Some(s.entries[k]) else None
  {
    if k in s.entries then (LruState(s.entries, Remove(s.order, k) + [k]), Some(s.entries[k]))
    else (s, None)
  }

  /** `Add`: a present name is updated in place; a new name is stored,
      evicting the least recently used one when the cache is full. */
  function LruAdd(s: LruState, max: int, k: string, v: string): LruState
    requires max > 0
  {
    if k in s.entries then LruState(s.entries[k := v], Remove(s.order, k) + [k])
    else if |s.order| < max then LruState(s.entries[k := v], s.order + [k])
    else LruState((s.entries - {s.order[0]})[k := v], s.order[1..] + [k])
  }

  /** An empty cache is valid for any positive bound. */
  lemma EmptyValid(max: int)
    requires max > 0
    ensures LruValid(LruState(map[], []), max)
  {
  }

  /** `Get` keeps the cache valid. */
  lemma LruGetValid(s: LruState, max: int, k: string)
    requires LruValid(s, max)
    ensures LruValid(LruGet(s, k).0, max)
  {
    RemoveDistinct(s.order, k);
    if k in s.entries {
      var o := Remove(s.order, k) + [k];
      forall i, j | 0 <= i < j < |o| ensures o[i] != o[j] {
        if j == |o| - 1 {
          assert o[i] in Remove(s.order, k);
        } else {
          assert o[i] == Remove(s.order, k)[i] && o[j] == Remove(s.order, k)[j];
        }
      }
    }
  }

  lemma AppendDistinct(rest: seq<string>, k: string)
    requires Distinct(rest) && k !in rest
    ensures Distinct(rest + [k])
  {
    var o := rest + [k];
    forall i, j | 0 <= i < j < |o| ensures o[i] != o[j] {
      if j == |o| - 1 {
        assert o[i] == rest[i];
      } else {
        assert o[i] == rest[i] && o[j] == rest[j];
      }
    }
  }

  lemma TailDistinct(order: seq<string>)
    requires Distinct(order) && |order| > 0
    ensures Distinct(order[1..]) && order[0] !in order[1..]
    ensures forall x :: x in order[1..] <==> x in order && x != order[0]
  {
    var tail := order[1..];
    forall i, j | 0 <= i < j < |tail| ensures tail[i] != tail[j] {
      assert tail[i] == order[i + 1] && tail[j] == order[j + 1];
    }
    forall j | 0 <= j < |tail| ensures tail[j] != order[0] {
      assert tail[j] == order[j + 1];
    }
    assert order == [order[0]] + tail;
  }

  /** `Add` keeps the cache valid; in particular the number of entries
      never exceeds `max`. */
  lemma LruAddValid(s: LruState, max: int, k: string, v: string)
    requires LruValid(s, max)
    ensures LruValid(LruAdd(s, max, k, v), max)
  {
    if k in s.entries {
      RemoveDistinct(s.order, k);
      AppendDistinct(Remove(s.order, k), k);
    } else if |s.order| < max {
      AppendDistinct(s.order, k);
    } else {
      EvictValid(s, max, k, v);
    }
  }

  lemma EvictValid(s: LruState, max: int, k: string, v: string)
    requires LruValid(s, max) && k !in s.entries && |s.order| >= max
    ensures LruValid(LruAdd(s, max, k, v), max)
  {
    var o := s.order[0];
    TailDistinct(s.order);
    AppendDistinct(s.order[1..], k);
    var kept := s.entries - {o};
    assert kept.Keys == s.entries.Keys - {o};
    assert |kept| == |s.entries| - 1;
    assert LruAdd(s, max, k, v) == LruState(kept[k := v], s.order[1..] + [k]);
  }

  /** After `Add(k, v)` the name holds `v`: the evicted name, if any, is a
      different one. */
  lemma AddThenGet(s: LruState, max: int, k: string, v: string)
    requires LruValid(s, max)
    ensures k in LruAdd(s, max, k, v).entries
    ensures LruGet(LruAdd(s, max, k, v), k).1 == Some(v)
  {
  }

  /** `Add` of a stored name replaces its content and touches no other
      entry: nothing is evicted. */
  lemma AddReplaces(s: LruState, max: int, k: string, v: string)
    requires max > 0 && k in s.entries
    ensures LruAdd(s, max, k, v).entries == s.entries[k := v]
  {
  }

  /** Other entries survive an `Add` unless they are the one evicted: the
      least recently used, when a new name arrives at a full cache. */
  lemma AddFrame(s: LruState, max: int, k: string, v: string, other: string)
    requires LruValid(s, max)
    requires other != k && other in s.entries
    ensures other in LruAdd(s, max, k, v).entries <==>
              (k in s.entries || |s.order| < max || other != s.order[0])
    ensures other in LruAdd(s, max, k, v).entries ==> LruAdd(s, max, k, v).entries[other] == s.entries[other]
  {
  }

  /** A name that was never added stays absent. */
  lemma AbsentStaysAbsent(s: LruState, max: int, k: string, added: string, v: string, looked: string)
    requires max > 0 && k !in s.entries && added != k
    ensures k !in LruAdd(s, max, added, v).entries
    ensures k !in LruGet(s, looked).0.entries
  {
  }

  /** The `templateCache` wrapper. */
  class TemplateCache {
    /** The size given to `lru.New`. */
    const max: int
    var entries: map<string, string>
    var recency: seq<string>

    function State(): LruState
      reads this
    {
      LruState(entries, recency)
    }

    /** A live cache: `lru.New(max)` succeeded (it fails for `max` <= 0,
        leaving a nil cache that `Get` and `Add` would dereference). */
    ghost predicate Valid()
      reads this
    {
      LruValid(State(), max)
    }

    /** `newTemplateCache(max)`. */
    constructor (max: int)
      ensures this.max == max && entries == map[] && recency == []
      ensures max > 0 ==> Valid()
    {
      this.max := max;
      entries := map[];
      recency := [];
    }

    /** `templateCache.Get`: the stored bytes, or nil; the contents are
        never altered. */
    method Get(templateName: string) returns (content: Option<string>)
      modifies this
      requires Valid()
      ensures Valid()
      ensures content == if templateName in old(entries) then Some(old(entries)[templateName]) else None
      ensures entries == old(entries)
      ensures State() == LruGet(old(State()), templateName).0
    {
      LruGetValid(State(), max, templateName);
      var r := LruGet(State(), templateName);
      entries, recency := r.0.entries, r.0.order;
      content := r.1;
    }

    /** `templateCache.Add`. */
    method Add(templateName: string, content: string)
      modifies this
      requires Valid()
      ensures Valid()
      ensures State() == LruAdd(old(State()), max, templateName, content)
      ensures templateName in entries && entries[templateName] == content
    {
      LruAddValid(State(), max, templateName, content);
      var r := LruAdd(State(), max, templateName, content);
      entries, recency := r.entries, r.order;
    }
  }
}

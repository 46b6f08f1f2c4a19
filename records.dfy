/** JavaScript object literals as lists of (key, value) properties in insertion
    order: property lookup, assignment and the object spread `{...a, ...b}`.
    JavaScript lists integer-like keys first, in ascending order; that ordering
    is not modelled, and the header names the worker uses are not integer-like. */
module Records {
  import opened Wrappers

  function Keys<V>(props: seq<(string, V)>): set<string> {
    if props == [] then {} else {props[0].0} + Keys(props[1..])
  }

  lemma {:induction false} KeysAppend<V>(a: seq<(string, V)>, b: seq<(string, V)>)
    ensures Keys(a + b) == Keys(a) + Keys(b)
    decreases |a|
  {
    if a == [] {
      assert a + b == b;
    } else {
      assert (a + b)[0] == a[0];
      assert (a + b)[1..] == a[1..] + b;
      KeysAppend(a[1..], b);
    }
  }

  /** An object never holds the same key twice. */
  predicate UniqueKeys<V>(props: seq<(string, V)>) {
    props == [] || (props[0].0 !in Keys(props[1..]) && UniqueKeys(props[1..]))
  }

  /** `obj[key]`: the value of the first property named `key`, if any. */
  function Lookup<V>(props: seq<(string, V)>, key: string): (r: Option<V>)
    ensures r.Some? <==> key in Keys(props)
  {
    if props == [] then None
    else if props[0].0 == key then Some(props[0].1)
    else Lookup(props[1..], key)
  }

  /** `obj[key] = value`: an existing key keeps its position and takes the
      new value; a new key is added last. */
  function Assign<V>(props: seq<(string, V)>, key: string, value: V): (r: seq<(string, V)>)
    ensures Keys(r) == Keys(props) + {key}
    ensures Lookup(r, key) == Some(value)
    ensures forall k :: k != key ==> Lookup(r, k) == Lookup(props, k)
    ensures UniqueKeys(props) ==> UniqueKeys(r)
    ensures key !in Keys(props) ==> r == props + [(key, value)]
  {
    if props == [] then [(key, value)]
    else if props[0].0 == key then [(key, value)] + props[1..]
    else [props[0]] + Assign(props[1..], key, value)
  }

  /** `{...base, ...extra}`: copies the properties of `extra`, in order, onto `base`. */
  function Spread<V>(base: seq<(string, V)>, extra: seq<(string, V)>): (r: seq<(string, V)>)
    ensures Keys(r) == Keys(base) + Keys(extra)
    ensures UniqueKeys(base) ==> UniqueKeys(r)
    decreases |extra|
  {
    if extra == [] then base
    else Spread(Assign(base, extra[0].0, extra[0].1), extra[1..])
  }

  /** After a spread, a key of `extra` has `extra`'s value and every other key keeps `base`'s. */
  lemma {:induction false} SpreadLookup<V>(base: seq<(string, V)>, extra: seq<(string, V)>, k: string)
    requires UniqueKeys(extra)
    ensures Lookup(Spread(base, extra), k) ==
            if k in Keys(extra) then Lookup(extra, k) else Lookup(base, k)
    decreases |extra|
  {
    if extra != [] {
      SpreadLookup(Assign(base, extra[0].0, extra[0].1), extra[1..], k);
    }
  }

  /** Spreading properties whose keys `base` lacks appends them in their own order. */
  lemma {:induction false} SpreadDisjoint<V>(base: seq<(string, V)>, extra: seq<(string, V)>)
    requires UniqueKeys(extra)
    requires Keys(base) !! Keys(extra)
    ensures Spread(base, extra) == base + extra
    decreases |extra|
  {
    if extra != [] {
      var next := base + [extra[0]];
      assert extra[0].0 !in Keys(base) by {
        assert extra[0].0 in Keys(extra);
      }
      assert Assign(base, extra[0].0, extra[0].1) == next;
      assert Spread(base, extra) == Spread(next, extra[1..]);
      KeysAppend(base, [extra[0]]);
      assert UniqueKeys(extra[1..]) && extra[0].0 !in Keys(extra[1..]);
      assert Keys(next) !! Keys(extra[1..]);
      SpreadDisjoint(next, extra[1..]);
      assert next + extra[1..] == base + extra;
    }
  }
}

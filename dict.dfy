/**
 * Python's `dict` with string keys: a map together with the order in which
 * its keys were first inserted, which is the order Python iterates in.
 */
module PyDict {

  datatype OrderedMap<V> = OrderedMap(keys: seq<string>, values: map<string, V>)

  predicate Distinct(keys: seq<string>) {
    forall i, j :: 0 <= i < j < |keys| ==> keys[i] != keys[j]
  }

  /** The dictionary's invariant: each key listed once, and exactly the keys of the map. */
  ghost predicate Valid<V>(m: OrderedMap<V>) {
    Distinct(m.keys) && forall k :: k in m.values <==> k in m.keys
  }

  function Empty<V>(): (m: OrderedMap<V>)
    ensures Valid(m)
  {
    OrderedMap([], map[])
  }

  /** `d[k] = v`: a new key goes at the end, an existing key keeps its place. */
  function Put<V>(m: OrderedMap<V>, k: string, v: V): (r: OrderedMap<V>)
    requires Valid(m)
    ensures Valid(r)
    ensures r.values == m.values[k := v]
    ensures k in m.values ==> r.keys == m.keys
    ensures k !in m.values ==> r.keys == m.keys + [k]
  {
    if k in m.values then OrderedMap(m.keys, m.values[k := v])
    else OrderedMap(m.keys + [k], m.values[k := v])
  }

  /** The list `keys` without the element `k`. */
  function Without(keys: seq<string>, k: string): (r: seq<string>)
    ensures forall x :: x in r <==> x in keys && x != k
    ensures Distinct(keys) ==> Distinct(r)
    ensures k !in keys ==> r == keys
  {
    if |keys| == 0 then []
    else if keys[0] == k then Without(keys[1..], k)
    else
      var rest := Without(keys[1..], k);
      assert Distinct(keys) ==> Distinct(keys[1..]) && keys[0] !in keys[1..] by {
        if Distinct(keys) {
          forall i | 0 <= i < |keys| - 1 ensures keys[1..][i] != keys[0] {
            assert keys[1..][i] == keys[i + 1];
          }
        }
      }
      [keys[0]] + rest
  }

  /** `d.pop(k, None)` for its effect on `d`: the key and its value are gone, the rest keep their order. */
  function Remove<V>(m: OrderedMap<V>, k: string): (r: OrderedMap<V>)
    requires Valid(m)
    ensures Valid(r)
    ensures r.values == m.values - {k}
    ensures r.keys == Without(m.keys, k)
  {
    OrderedMap(Without(m.keys, k), m.values - {k})
  }

  /**
   * The keys of a dictionary that starts empty and is assigned the keys
   * `xs` one after another: each key in the order of its first assignment.
   */
  function Dedup(xs: seq<string>): (r: seq<string>)
    ensures forall x :: x in r <==> x in xs
    ensures Distinct(r)
  {
    if |xs| == 0 then []
    else
      var d := Dedup(xs[..|xs| - 1]);
      var x := xs[|xs| - 1];
      assert forall y :: y in xs <==> y in xs[..|xs| - 1] || y == x;
      if x in d then d else d + [x]
  }

  /** Keys that are already distinct come out as they are. */
  lemma {:induction false} DedupDistinct(xs: seq<string>)
    requires Distinct(xs)
    ensures Dedup(xs) == xs
  {
    if |xs| > 0 {
      var init := xs[..|xs| - 1];
      assert Distinct(init) by {
        forall i, j | 0 <= i < j < |init| ensures init[i] != init[j] {
          assert init[i] == xs[i] && init[j] == xs[j];
        }
      }
      DedupDistinct(init);
      assert xs[|xs| - 1] !in init by {
        forall i | 0 <= i < |init| ensures init[i] != xs[|xs| - 1] {
          assert init[i] == xs[i];
        }
      }
      assert init + [xs[|xs| - 1]] == xs;
    }
  }

  /** Assigning the keys of `a` before `b` leaves the same order whether or not `a` is deduplicated first. */
  lemma {:induction false} DedupPrefix(a: seq<string>, b: seq<string>)
    ensures Dedup(Dedup(a) + b) == Dedup(a + b)
  {
    if |b| == 0 {
      assert Dedup(a) + b == Dedup(a) && a + b == a;
      DedupDistinct(Dedup(a));
    } else {
      var b', x := b[..|b| - 1], b[|b| - 1];
      DedupPrefix(a, b');
      assert (Dedup(a) + b)[..|Dedup(a) + b| - 1] == Dedup(a) + b';
      assert (a + b)[..|a + b| - 1] == a + b';
    }
  }

  /** `d.get(k, default)`. */
  function Get<V>(m: OrderedMap<V>, k: string, default: V): V {
    if k in m.values then m.values[k] else default
  }
}

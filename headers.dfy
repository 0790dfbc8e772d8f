/** HTTP header maps as the gateway's proxies build them: `Add` appends a value, `Set`
    replaces all of a key's values, and copying walks the source's keys in map order and
    adds each value. Keys are taken to be in canonical form already. */
module Headers {

  type Header = map<string, seq<string>>

  /** The values a header has for a key; none when the key is absent. */
  function Values(h: Header, key: string): seq<string>
  {
    if key in h then h[key] else []
  }

  /** `Header.Add`. */
  function Add(h: Header, key: string, value: string): (r: Header)
    ensures r.Keys == h.Keys + {key}
    ensures Values(r, key) == Values(h, key) + [value]
    ensures forall k :: k in h && k != key ==> r[k] == h[k]
  {
    h[key := Values(h, key) + [value]]
  }

  /** `Header.Set`. */
  function Set(h: Header, key: string, value: string): (r: Header)
    ensures r.Keys == h.Keys + {key}
    ensures r[key] == [value]
    ensures forall k :: k in h && k != key ==> r[k] == h[k]
  {
    h[key := [value]]
  }

  /** `Header.Get`: the first value, or "" when there is none. */
  function Get(h: Header, key: string): (v: string)
    ensures key in h && |h[key]| > 0 ==> v == h[key][0]
    ensures !(key in h && |h[key]| > 0) ==> v == ""
  {
    if key in h && |h[key]| > 0 then h[key][0] else ""
  }

  /** The values of one key added in order. */
  function AddValues(h: Header, key: string, vs: seq<string>): (r: Header)
    ensures |vs| == 0 ==> r == h
    ensures |vs| > 0 ==> r == h[key := Values(h, key) + vs]
  {
    if |vs| == 0 then h
    else
      var init := vs[..|vs| - 1];
      var before := AddValues(h, key, init);
      assert init + [vs[|vs| - 1]] == vs;
      assert Values(before, key) == Values(h, key) + init;
      assert Values(h, key) + init + [vs[|vs| - 1]] == Values(h, key) + vs;
      Add(before, key, vs[|vs| - 1])
  }

  /** `order` lists the keys of `h`, each once: how a `range` over a Go map visits them. */
  predicate KeyOrder(order: seq<string>, h: Header)
  {
    && (forall i :: 0 <= i < |order| ==> order[i] in h)
    && (forall k :: k in h ==> k in order)
    && (forall i, j :: 0 <= i < j < |order| ==> order[i] != order[j])
  }

  /** Every value of every key of `src` in `order`, added to `h`. */
  function AddAll(h: Header, src: Header, order: seq<string>): Header
    requires forall i :: 0 <= i < |order| ==> order[i] in src
  {
    if |order| == 0 then h
    else
      var last := order[|order| - 1];
      AddValues(AddAll(h, src, order[..|order| - 1]), last, src[last])
  }

  /** Every value of every source header added to `h`, one key after another in the order the
      map is visited and each key's values in order. */
  method CopyHeaders(h: Header, src: Header, order: seq<string>) returns (out: Header)
    requires forall i :: 0 <= i < |order| ==> order[i] in src
    ensures out == AddAll(h, src, order)
  {
    out := h;
    for i := 0 to |order|
      invariant out == AddAll(h, src, order[..i])
    {
      var key := order[i];
      var values := src[key];
      var before := out;
      for j := 0 to |values|
        invariant out == AddValues(before, key, values[..j])
      {
        assert values[..j + 1][..j] == values[..j];
        out := Add(out, key, values[j]);
      }
      assert values[..|values|] == values;
      assert order[..i + 1][..i] == order[..i];
    }
    assert order[..|order|] == order;
  }

  /** No key is present with no values (as in every header a server parses). */
  predicate NoEmptyValues(h: Header)
  {
    forall k :: k in h ==> |h[k]| > 0
  }

  /** Copying keys listed once each into `h` appends each such key's values to what `h`
      has and leaves every other key alone. */
  lemma {:induction false} AddAllAppends(h: Header, src: Header, order: seq<string>)
    requires forall i :: 0 <= i < |order| ==> order[i] in src
    requires forall i, j :: 0 <= i < j < |order| ==> order[i] != order[j]
    requires NoEmptyValues(src)
    ensures var r := AddAll(h, src, order);
      && (forall k :: k in r <==> k in h || k in order)
      && (forall k :: k in order ==> r[k] == Values(h, k) + src[k])
      && (forall k :: k in h && k !in order ==> r[k] == h[k])
  {
    if |order| > 0 {
      var init, last := order[..|order| - 1], order[|order| - 1];
      assert forall i :: 0 <= i < |init| ==> init[i] == order[i];
      AddAllAppends(h, src, init);
      assert last !in init by {
        forall i | 0 <= i < |init| ensures init[i] != last {
          assert init[i] == order[i];
        }
      }
      forall k ensures k in order <==> k in init || k == last {
        if k in order {
          var i :| 0 <= i < |order| && order[i] == k;
          if i < |init| { assert init[i] == k; }
        }
        if k in init {
          var i :| 0 <= i < |init| && init[i] == k;
          assert order[i] == k;
        }
      }
    }
  }

  /** Copying into an empty header gives an exact copy. */
  lemma CopyIntoEmpty(src: Header, order: seq<string>)
    requires KeyOrder(order, src) && NoEmptyValues(src)
    ensures AddAll(map[], src, order) == src
  {
    var r := AddAll(map[], src, order);
    AddAllAppends(map[], src, order);
    forall k ensures k in r <==> k in src {
      assert k in r <==> k in order;
    }
    forall k | k in src ensures r[k] == src[k] {
      assert k in order;
      assert r[k] == Values(map[], k) + src[k];
      assert Values(map[], k) == [];
    }
  }

  /** Copying a header into a copy of itself doubles every value list. */
  lemma CopyIntoItself(src: Header, order: seq<string>)
    requires KeyOrder(order, src) && NoEmptyValues(src)
    ensures var r := AddAll(src, src, order);
      r.Keys == src.Keys && forall k :: k in src ==> r[k] == src[k] + src[k]
  {
    AddAllAppends(src, src, order);
  }
}

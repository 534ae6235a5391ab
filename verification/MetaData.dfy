/** Metadata: the interface of md, its implementations, and the conversion of pb/md. */
module MetaData {
  import opened Wrappers
  import opened Seqs

  type Bytes = seq<bv8>

  const TracingMDKey := "nptracing"

  // The implementations of the MD interface: nil, a map (md.MetaData and pb's MetaData), and tracing's wrapper.
  datatype MD = NilMD | MapMD(values: map<string, seq<Bytes>>) | TracingMD(inner: MD, data: Bytes)

  predicate HasKey(md: MD, key: string) {
    match md
    case NilMD => false
    case MapMD(m) => key in m
    case TracingMD(inner, _) => key == TracingMDKey || HasKey(inner, key)
  }

  function Values(md: MD, key: string): seq<Bytes> {
    match md
    case NilMD => []
    case MapMD(m) => if key in m then m[key] else []
    case TracingMD(inner, data) => if key == TracingMDKey then [data] else Values(inner, key)
  }

  /** No metadata has no keys, a map has its own, and tracing adds its key to the metadata it wraps, in place of one of
      that name, and leaves all others as they are. */
  lemma {:induction false} KeysAndValues(md: MD, key: string)
    ensures md.NilMD? ==> !HasKey(md, key) && Values(md, key) == []
    ensures md.MapMD? ==> (HasKey(md, key) <==> key in md.values)
    ensures md.MapMD? && key in md.values ==> Values(md, key) == md.values[key]
    ensures md.TracingMD? && key == "nptracing" ==> HasKey(md, key) && Values(md, key) == [md.data]
    ensures md.TracingMD? && key != "nptracing" ==> HasKey(md, key) == HasKey(md.inner, key) && Values(md, key) == Values(md.inner, key)
  {
  }

  // What the other side is to see.
  ghost predicate SameView(a: MD, b: MD) {
    forall key :: HasKey(a, key) == HasKey(b, key) && Values(a, key) == Values(b, key)
  }

  /** The keys that Keys hands to its callback, in some order, if the callback never stops it. */
  method Keys(md: MD) returns (keys: seq<string>)
    ensures NoDup(keys)
    ensures forall k :: k in keys <==> HasKey(md, k)
    decreases md
  {
    keys := [];
    match md
    case NilMD =>
    case MapMD(m) =>
      var rest := m.Keys;
      while rest != {}
        invariant NoDup(keys)
        invariant forall k :: k in m <==> k in rest || k in keys
        invariant forall k :: k in keys ==> k !in rest
      {
        var k :| k in rest;
        rest := rest - {k};
        keys := keys + [k];
      }
    case TracingMD(inner, _) =>
      var innerKeys := Keys(inner);
      keys := [TracingMDKey];
      for i := 0 to |innerKeys|
        invariant NoDup(keys)
        invariant forall k :: k in keys <==> k == TracingMDKey || k in innerKeys[..i]
      {
        assert innerKeys[..i + 1] == innerKeys[..i] + [innerKeys[i]];
        assert innerKeys[i] !in innerKeys[..i];
        if innerKeys[i] != TracingMDKey {
          keys := keys + [innerKeys[i]];
        }
      }
      assert innerKeys[..|innerKeys|] == innerKeys;
  }

  /** NewMetaData keeps every key and every value list. */
  method NewMetaData(md: MD) returns (ret: map<string, seq<Bytes>>)
    ensures SameView(MapMD(ret), md)
    ensures ret == View(md)
  {
    ret := map[];
    var keys := Keys(md);
    for i := 0 to |keys|
      invariant forall k :: k in ret <==> k in keys[..i]
      invariant forall k :: k in ret ==> ret[k] == Values(md, k)
    {
      assert keys[..i + 1] == keys[..i] + [keys[i]];
      ret := ret[keys[i] := Values(md, keys[i])];
    }
    assert keys[..|keys|] == keys;
    NoKeyNoValues(md);
    SameViewIsView(ret, md);
  }

  lemma {:induction false} NoKeyNoValues(md: MD)
    ensures forall key :: !HasKey(md, key) ==> Values(md, key) == []
  {
    if md.TracingMD? { NoKeyNoValues(md.inner); }
  }

  // The metadata as one map.
  function View(md: MD): map<string, seq<Bytes>> {
    match md
    case NilMD => map[]
    case MapMD(m) => m
    case TracingMD(inner, data) => View(inner)[TracingMDKey := [data]]
  }

  lemma {:induction false} ViewIsSame(md: MD)
    ensures SameView(MapMD(View(md)), md)
  {
    if md.TracingMD? {
      ViewIsSame(md.inner);
      forall key ensures HasKey(MapMD(View(md)), key) == HasKey(md, key) && Values(MapMD(View(md)), key) == Values(md, key) {
        assert HasKey(MapMD(View(md.inner)), key) == HasKey(md.inner, key);
        assert Values(MapMD(View(md.inner)), key) == Values(md.inner, key);
      }
    }
  }

  lemma SameViewIsView(m: map<string, seq<Bytes>>, md: MD)
    requires SameView(MapMD(m), md)
    ensures m == View(md)
  {
    ViewIsSame(md);
    forall k ensures k in m <==> k in View(md) {
      assert HasKey(MapMD(m), k) == HasKey(md, k) == HasKey(MapMD(View(md)), k);
    }
    forall k | k in m ensures m[k] == View(md)[k] {
      assert Values(MapMD(m), k) == Values(md, k) == Values(MapMD(View(md)), k);
    }
  }
}

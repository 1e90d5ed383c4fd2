/** The tool registry: `load_tools` turns the decoded catalog into the dict
    TOOLS_LOOKUP (name -> tool record), and `get_tools` lists its values.
    A Python dict remembers insertion order and keeps a key's position when
    the key is assigned again, so the registry is a table together with the
    order in which its keys were first inserted. */
module ToolRegistry {
  import opened Json

  /** Where the catalog comes from: the file could not be opened or read,
      its text is not JSON, or it decoded to a value. */
  datatype Source = Unreadable | Malformed | Parsed(doc: Value)

  /** A Python dict: its keys in insertion order and the key-to-value
      table. */
  datatype Registry = Registry(order: seq<Key>, table: map<Key, Value>)

  const Empty: Registry := Registry([], map[])

  /** The shape every dict has: each key listed once, and listed exactly
      when it is in the table. */
  predicate WellFormed(r: Registry) {
    && (forall i, j :: 0 <= i < j < |r.order| ==> r.order[i] != r.order[j])
    && (forall k :: k in r.table ==> k in r.order)
    && (forall i :: 0 <= i < |r.order| ==> r.order[i] in r.table)
  }

  /** `d.get(k)`. */
  function Lookup(r: Registry, k: Key): Option<Value> {
    if k in r.table then Some(r.table[k]) else None
  }

  /** `d[k] = v`: an existing key keeps its position and gets the new value;
      a new key is appended. */
  function Put(r: Registry, k: Key, v: Value): Registry {
    Registry(if k in r.table then r.order else r.order + [k], r.table[k := v])
  }

  /** `d[k] = v` keeps the dict's shape, makes `k` map to `v` and leaves
      every other key as it was. */
  lemma PutSpec(r: Registry, k: Key, v: Value)
    ensures WellFormed(r) ==> WellFormed(Put(r, k, v))
    ensures Lookup(Put(r, k, v), k) == Some(v)
    ensures forall k' :: k' != k ==> Lookup(Put(r, k, v), k') == Lookup(r, k')
    ensures k in r.table ==> Put(r, k, v).order == r.order
    ensures k !in r.table ==> Put(r, k, v).order == r.order + [k]
  {
    if WellFormed(r) && k !in r.table {
      var o := r.order + [k];
      forall i, j | 0 <= i < j < |o| ensures o[i] != o[j] {
        if j == |o| - 1 {
          assert o[i] == r.order[i] && r.order[i] in r.table;
        }
      }
    }
  }

  /** The key `tool["name"]` contributes, or None when evaluating it raises:
      the record is not a dict (TypeError), has no "name" (KeyError), or its
      name is a list or dict (unhashable, TypeError). */
  function NameKey(tool: Value): Option<Key> {
    if tool.Obj? && "name" in tool.fields then KeyOf(tool.fields["name"]) else None
  }

  predicate AllNamed(items: seq<Value>) {
    forall i :: 0 <= i < |items| ==> NameKey(items[i]).Some?
  }

  /** The registry invariant: a well-formed dict in which every key is the
      name of the record stored under it. */
  predicate Valid(r: Registry) {
    && WellFormed(r)
    && forall k :: k in r.table ==> NameKey(r.table[k]) == Some(k)
  }

  /** The comprehension `{tool["name"]: tool for tool in tools}` run over
      the first `n` records: None when one of them raises. Defined on the
      last of those records, so that a later record overwriting an earlier
      one is the recursion itself. */
  function BuildPrefix(items: seq<Value>, n: nat): Option<Registry>
    requires n <= |items|
  {
    if n == 0 then Some(Empty)
    else
      var prev := BuildPrefix(items, n - 1);
      var k := NameKey(items[n - 1]);
      if prev.Some? && k.Some? then Some(Put(prev.value, k.value, items[n - 1])) else None
  }

  /** The comprehension over the whole list. */
  function Build(items: seq<Value>): Option<Registry> {
    BuildPrefix(items, |items|)
  }

  /** Each step of the comprehension keeps the registry invariant. */
  lemma {:induction false} BuildKeepsInvariant(items: seq<Value>, n: nat)
    requires n <= |items|
    ensures BuildPrefix(items, n).Some? ==> Valid(BuildPrefix(items, n).value)
  {
    if n > 0 {
      var prev, kt := BuildPrefix(items, n - 1), NameKey(items[n - 1]);
      if prev.Some? && kt.Some? {
        BuildKeepsInvariant(items, n - 1);
        var r := prev.value;
        var r' := Put(r, kt.value, items[n - 1]);
        assert BuildPrefix(items, n) == Some(r');
        PutSpec(r, kt.value, items[n - 1]);
        forall k | k in r'.table ensures NameKey(r'.table[k]) == Some(k) {
          if k != kt.value {
            assert Lookup(r', k) == Lookup(r, k);
          }
        }
      }
    }
  }

  /** `load_tools`. Every failure yields the empty dict. A decoded document
      that is not a list is iterated as its keys or characters (none of
      which has a "name", so the comprehension raises) or cannot be iterated
      at all (TypeError), or is empty: in every case the result is empty. */
  function Load(src: Source): (r: Registry)
    ensures Valid(r)
  {
    match src
    case Unreadable => Empty
    case Malformed => Empty
    case Parsed(doc) =>
      if doc.Arr? then
        BuildKeepsInvariant(doc.items, |doc.items|);
        match Build(doc.items)
        case Some(r) => r
        case None => Empty
      else Empty
  }

  /** `get_tools`: `list(TOOLS_LOOKUP.values())`, the values in key
      order. */
  function Tools(r: Registry): (vs: seq<Value>)
    requires WellFormed(r)
    ensures |vs| == |r.order|
    ensures forall i :: 0 <= i < |r.order| ==> Some(vs[i]) == Lookup(r, r.order[i])
  {
    seq(|r.order|, i requires 0 <= i < |r.order| => r.table[r.order[i]])
  }

  /** The keys of a sequence of named records, in order. */
  function NameKeys(items: seq<Value>): (ks: seq<Key>)
    requires AllNamed(items)
    ensures |ks| == |items|
    ensures forall i :: 0 <= i < |items| ==> Some(ks[i]) == NameKey(items[i])
  {
    if items == [] then [] else [NameKey(items[0]).value] + NameKeys(items[1..])
  }

  /** Reference definition of first-occurrence order: each distinct element
      once, where it first appears. */
  function Dedup(s: seq<Key>): seq<Key> {
    if s == [] then []
    else
      var d := Dedup(s[..|s| - 1]);
      if s[|s| - 1] in d then d else d + [s[|s| - 1]]
  }

  /** Position `i` holds the last of the first `n` records named `k`. */
  ghost predicate LastNamedBefore(items: seq<Value>, n: int, k: Key, i: int)
    requires n <= |items|
  {
    && 0 <= i < n
    && NameKey(items[i]) == Some(k)
    && forall j :: i < j < n ==> NameKey(items[j]) != Some(k)
  }

  /** Position `i` holds the last record of `items` named `k`. */
  ghost predicate LastNamed(items: seq<Value>, k: Key, i: int) {
    LastNamedBefore(items, |items|, k, i)
  }

  predicate DistinctNames(items: seq<Value>) {
    forall i, j :: 0 <= i < j < |items| ==> NameKey(items[i]) != NameKey(items[j])
  }

  // ---------------------------------------------------------------------
  // Properties
  // ---------------------------------------------------------------------

  /** The comprehension over a prefix succeeds exactly when each record in
      it yields a key. */
  lemma {:induction false} BuildPrefixSucceedsIff(items: seq<Value>, n: nat)
    requires n <= |items|
    ensures BuildPrefix(items, n).Some? <==> forall i :: 0 <= i < n ==> NameKey(items[i]).Some?
  {
    if n > 0 {
      BuildPrefixSucceedsIff(items, n - 1);
      assert (forall i :: 0 <= i < n ==> NameKey(items[i]).Some?) <==>
             (forall i :: 0 <= i < n - 1 ==> NameKey(items[i]).Some?) && NameKey(items[n - 1]).Some?;
    }
  }

  /** The comprehension succeeds exactly when every record yields a key. */
  lemma BuildSucceedsIff(items: seq<Value>)
    ensures Build(items).Some? <==> AllNamed(items)
  {
    BuildPrefixSucceedsIff(items, |items|);
  }

  /** Whatever the source, loading never fails: a failure of any kind,
      including one record without a usable name, empties the registry. */
  lemma LoadFailsSoft(src: Source)
    requires || src.Unreadable?
             || src.Malformed?
             || (src.Parsed? && !src.doc.Arr?)
             || (src.Parsed? && src.doc.Arr? && !AllNamed(src.doc.items))
    ensures Load(src) == Empty
    ensures Tools(Load(src)) == []
  {
    if src.Parsed? && src.doc.Arr? {
      BuildSucceedsIff(src.doc.items);
    }
  }

  /** A catalog whose records all carry a usable name is loaded in full. */
  lemma LoadSucceeds(items: seq<Value>)
    requires AllNamed(items)
    ensures Build(items).Some?
    ensures Load(Parsed(Arr(items))) == Build(items).value
  {
    BuildSucceedsIff(items);
  }

  /** A registry built from a prefix satisfies the invariant and lists the
      keys in first-occurrence order. */
  lemma {:induction false} BuildPrefixValid(items: seq<Value>, n: nat)
    requires AllNamed(items)
    requires n <= |items|
    ensures BuildPrefix(items, n).Some?
    ensures Valid(BuildPrefix(items, n).value)
    ensures BuildPrefix(items, n).value.order == Dedup(NameKeys(items)[..n])
  {
    BuildPrefixSucceedsIff(items, n);
    if n > 0 {
      BuildPrefixValid(items, n - 1);
      var r, t := BuildPrefix(items, n - 1).value, items[n - 1];
      var kt := NameKey(t).value;
      var r' := Put(r, kt, t);
      assert BuildPrefix(items, n) == Some(r');
      PutSpec(r, kt, t);
      assert Valid(r') by {
        forall k | k in r'.table ensures NameKey(r'.table[k]) == Some(k) {
          if k != kt {
            assert Lookup(r', k) == Lookup(r, k);
          }
        }
      }
      assert r'.order == Dedup(NameKeys(items)[..n]) by {
        var ks := NameKeys(items)[..n];
        assert ks[..|ks| - 1] == NameKeys(items)[..n - 1];
        assert ks[|ks| - 1] == kt;
        assert kt in r.order <==> kt in r.table;
      }
    }
  }

  /** A built registry satisfies the invariant and lists the keys in
      first-occurrence order. */
  lemma BuildValid(items: seq<Value>)
    requires AllNamed(items)
    ensures Build(items).Some?
    ensures Valid(Build(items).value)
    ensures Build(items).value.order == Dedup(NameKeys(items))
  {
    BuildPrefixValid(items, |items|);
    assert NameKeys(items)[..|items|] == NameKeys(items);
  }

  /** Within a prefix, a name is found iff some record carries it. */
  lemma {:induction false} BuildPrefixFinds(items: seq<Value>, n: nat, k: Key)
    requires AllNamed(items)
    requires n <= |items|
    ensures BuildPrefix(items, n).Some?
    ensures Lookup(BuildPrefix(items, n).value, k).Some? <==>
              exists i :: 0 <= i < n && NameKey(items[i]) == Some(k)
  {
    if n > 0 {
      var prev := BuildPrefix(items, n - 1);
      assert prev.Some? by {
        BuildPrefixFinds(items, n - 1, k);
      }
      var r, t := prev.value, items[n - 1];
      var kt := NameKey(t).value;
      assert BuildPrefix(items, n) == Some(Put(r, kt, t));
      PutSpec(r, kt, t);
      if kt == k {
        assert NameKey(items[n - 1]) == Some(k);
      } else {
        BuildPrefixFinds(items, n - 1, k);
        if exists i :: 0 <= i < n && NameKey(items[i]) == Some(k) {
          var i :| 0 <= i < n && NameKey(items[i]) == Some(k);
          assert i < n - 1;
        }
      }
    }
  }

  /** Within a prefix, the record found under a name is the last one
      carrying it. */
  lemma {:induction false} BuildPrefixFindsLast(items: seq<Value>, n: nat, k: Key, i: int)
    requires AllNamed(items)
    requires n <= |items|
    requires LastNamedBefore(items, n, k, i)
    ensures BuildPrefix(items, n).Some?
    ensures Lookup(BuildPrefix(items, n).value, k) == Some(items[i])
  {
    var prev := BuildPrefix(items, n - 1);
    assert prev.Some? by {
      BuildPrefixSucceedsIff(items, n - 1);
    }
    var r, t := prev.value, items[n - 1];
    var kt := NameKey(t).value;
    assert BuildPrefix(items, n) == Some(Put(r, kt, t));
    PutSpec(r, kt, t);
    if i < n - 1 {
      assert kt != k;
      BuildPrefixFindsLast(items, n - 1, k, i);
    }
  }

  /** After loading, a name is found iff some record carries it, and the
      record found is the last one carrying it. */
  lemma LoadLookup(items: seq<Value>, k: Key)
    requires AllNamed(items)
    ensures Lookup(Load(Parsed(Arr(items))), k).Some? <==>
              exists i :: 0 <= i < |items| && NameKey(items[i]) == Some(k)
    ensures forall i :: LastNamed(items, k, i) ==> Lookup(Load(Parsed(Arr(items))), k) == Some(items[i])
  {
    BuildPrefixFinds(items, |items|, k);
    forall i | LastNamed(items, k, i) ensures Lookup(Load(Parsed(Arr(items))), k) == Some(items[i]) {
      BuildPrefixFindsLast(items, |items|, k, i);
    }
  }

  /** Discovery lists exactly the values of the registry: one per key. */
  lemma ToolsAreValues(r: Registry, v: Value)
    requires WellFormed(r)
    ensures |Tools(r)| == |r.table|
    ensures v in Tools(r) <==> exists k :: Lookup(r, k) == Some(v)
  {
    assert r.table.Keys == set i | 0 <= i < |r.order| :: r.order[i];
    DistinctCardinality(r.order);
    if exists k :: Lookup(r, k) == Some(v) {
      var k :| Lookup(r, k) == Some(v);
      var i :| 0 <= i < |r.order| && r.order[i] == k;
      assert Tools(r)[i] == v;
    }
  }

  /** A list without repetitions has as many elements as its set. */
  lemma {:induction false} DistinctCardinality(s: seq<Key>)
    requires forall i, j :: 0 <= i < j < |s| ==> s[i] != s[j]
    ensures |set i | 0 <= i < |s| :: s[i]| == |s|
  {
    if s != [] {
      var t := s[..|s| - 1];
      DistinctCardinality(t);
      var st := set i | 0 <= i < |t| :: t[i];
      assert (set i | 0 <= i < |s| :: s[i]) == st + {s[|s| - 1]};
      assert s[|s| - 1] !in st;
    }
  }

  /** Discovery order after loading: one record per distinct name, in order
      of each name's first occurrence, each being the last record with that
      name. */
  lemma DiscoveryOrder(items: seq<Value>, j: int, i: int)
    requires AllNamed(items)
    requires 0 <= j < |Dedup(NameKeys(items))|
    requires LastNamed(items, Dedup(NameKeys(items))[j], i)
    ensures |Tools(Load(Parsed(Arr(items))))| == |Dedup(NameKeys(items))|
    ensures Tools(Load(Parsed(Arr(items))))[j] == items[i]
  {
    BuildValid(items);
    LoadLookup(items, Dedup(NameKeys(items))[j]);
  }

  /** Without repetitions, first-occurrence order is the order itself. */
  lemma {:induction false} DedupDistinct(s: seq<Key>)
    requires forall i, j :: 0 <= i < j < |s| ==> s[i] != s[j]
    ensures Dedup(s) == s
  {
    if s != [] {
      var t := s[..|s| - 1];
      DedupDistinct(t);
      assert s[|s| - 1] !in t;
      assert s == t + [s[|s| - 1]];
    }
  }

  /** With unique names, discovery returns the catalog exactly as given. */
  lemma UniqueCatalogListedVerbatim(items: seq<Value>)
    requires AllNamed(items)
    requires DistinctNames(items)
    ensures Tools(Load(Parsed(Arr(items)))) == items
  {
    var reg := Load(Parsed(Arr(items)));
    var ks := NameKeys(items);
    assert reg.order == ks by {
      BuildValid(items);
      LoadSucceeds(items);
      DedupDistinct(ks);
    }
    var ts := Tools(reg);
    forall q | 0 <= q < |items| ensures ts[q] == items[q] {
      assert LastNamed(items, ks[q], q);
      LoadLookup(items, ks[q]);
    }
    assert ts == items;
  }

  /** A record named `true` and a later one named `1` (or `false` and `0`)
      share one dict key: the registry holds a single entry, the later
      record, under the integer key. */
  lemma {:induction false} BoolAndIntNamesCollide(t: Value, u: Value, b: bool)
    requires t.Obj? && "name" in t.fields && t.fields["name"] == Bool(b)
    requires u.Obj? && "name" in u.fields && u.fields["name"] == Int(if b then 1 else 0)
    ensures Load(Parsed(Arr([t, u]))) == Registry([KInt(if b then 1 else 0)], map[KInt(if b then 1 else 0) := u])
  {
    var items, k := [t, u], KInt(if b then 1 else 0);
    assert NameKey(items[0]) == Some(k) && NameKey(items[1]) == Some(k);
    assert BuildPrefix(items, 0) == Some(Empty);
    assert BuildPrefix(items, 1) == Some(Put(Empty, k, t));
    assert Put(Empty, k, t) == Registry([k], map[k := t]) by {
      assert Empty.order + [k] == [k];
    }
    assert BuildPrefix(items, 2) == Some(Registry([k], map[k := t][k := u]));
    assert map[k := t][k := u] == map[k := u];
  }
}

/**
 * Python's dict with string keys, as the simulator uses it: a finite map together with
 * the insertion order of its keys, which is the order iteration visits them in.
 */
module OrderedDict {

  /** No key occurs twice. */
  ghost predicate Distinct(s: seq<string>) {
    forall i, j :: 0 <= i < j < |s| ==> s[i] != s[j]
  }

  /** The keys of a sequence of entries, in order. */
  function Keys<V>(s: seq<(string, V)>): (r: seq<string>)
    ensures |r| == |s|
    ensures forall i :: 0 <= i < |s| ==> r[i] == s[i].0
  {
    seq(|s|, i requires 0 <= i < |s| => s[i].0)
  }

  datatype Dict<V> = Dict(items: map<string, V>, order: seq<string>) {

    /** The order lists every key of the map exactly once. */
    ghost predicate Valid() {
      && (forall k :: k in items <==> k in order)
      && Distinct(order)
    }

    /** `not d`: the dict holds no entry. */
    predicate IsEmpty() {
      items == map[]
    }

    /**
     * `d[k] = v`: the entry for k becomes v and no other entry changes; a new key is
     * appended to the iteration order, an existing key keeps its place.
     */
    function Put(k: string, v: V): (d: Dict<V>)
      ensures Valid() ==> d.Valid()
      ensures d.items == items[k := v]
      ensures forall j :: j in items && j != k ==> j in d.items && d.items[j] == items[j]
      ensures k in items ==> d.order == order
      ensures k !in items ==> d.order == order + [k]
    {
      Dict(items[k := v], if k in items then order else order + [k])
    }

    /** `d.items()`: the entries in iteration order. */
    function Items(): (s: seq<(string, V)>)
      requires Valid()
      ensures Keys(s) == order
      ensures forall i :: 0 <= i < |s| ==> s[i].0 in items && s[i].1 == items[s[i].0]
    {
      seq(|order|, i requires 0 <= i < |order| => (order[i], items[order[i]]))
    }
  }

  /** `{}`. */
  function Empty<V>(): (d: Dict<V>)
    ensures d.Valid() && d.IsEmpty() && d.order == []
  {
    Dict(map[], [])
  }

  /** The dict that `d = {}` followed by `d[k] = v` for each pair in turn leaves behind. */
  function FromPairs<V>(s: seq<(string, V)>): (d: Dict<V>)
    ensures d.Valid()
  {
    if s == [] then Empty() else FromPairs(s[..|s| - 1]).Put(s[|s| - 1].0, s[|s| - 1].1)
  }

  /** Dropping the last of a list of distinct-keyed pairs leaves distinct keys, none equal to the dropped one. */
  /** Filling one more pair is one more `Put` on the dict filled so far. */
  lemma FromPairsStep<V>(s: seq<(string, V)>, i: nat)
    requires i < |s|
    ensures FromPairs(s[..i + 1]) == FromPairs(s[..i]).Put(s[i].0, s[i].1)
  {
    assert s[..i + 1][..i] == s[..i];
  }

  lemma DistinctInit<V>(s: seq<(string, V)>)
    requires s != [] && Distinct(Keys(s))
    ensures Distinct(Keys(s[..|s| - 1]))
    ensures Keys(s) == Keys(s[..|s| - 1]) + [s[|s| - 1].0]
    ensures s[|s| - 1].0 !in Keys(s[..|s| - 1])
  {
    var init := s[..|s| - 1];
    forall i, j | 0 <= i < j < |init| ensures Keys(init)[i] != Keys(init)[j] {
      assert Keys(s)[i] != Keys(s)[j];
    }
    forall j | 0 <= j < |init| ensures Keys(init)[j] != s[|s| - 1].0 {
      assert Keys(s)[j] != Keys(s)[|s| - 1];
    }
  }

  /** Filling a dict from pairs with distinct keys keeps their order and every value. */
  lemma {:induction false} FromDistinctPairs<V>(s: seq<(string, V)>)
    requires Distinct(Keys(s))
    ensures FromPairs(s).order == Keys(s)
    ensures forall i :: 0 <= i < |s| ==> s[i].0 in FromPairs(s).items && FromPairs(s).items[s[i].0] == s[i].1
  {
    if s != [] {
      var init := s[..|s| - 1];
      var last := s[|s| - 1];
      DistinctInit(s);
      FromDistinctPairs(init);
      var d := FromPairs(init);
      assert last.0 !in d.items by {
        assert last.0 !in d.order;
      }
      assert FromPairs(s) == d.Put(last.0, last.1);
      forall i | 0 <= i < |s| - 1 ensures s[i].0 in FromPairs(s).items && FromPairs(s).items[s[i].0] == s[i].1 {
        assert s[i] == init[i];
        assert s[i].0 in d.items && d.items[s[i].0] == s[i].1;
      }
    }
  }

  /** Rebuilding a dict from its own entries gives back the same dict. */
  lemma ItemsRoundTrip<V>(d: Dict<V>)
    requires d.Valid()
    ensures FromPairs(d.Items()) == d
  {
    var s := d.Items();
    FromDistinctPairs(s);
    var r := FromPairs(s);
    assert r.order == d.order;
    forall k | k in r.items ensures k in d.items && r.items[k] == d.items[k] {
      var i :| 0 <= i < |r.order| && r.order[i] == k;
      assert s[i].0 == k;
    }
    forall k | k in d.items ensures k in r.items {
      assert k in r.order;
    }
    assert r.items == d.items;
  }
}

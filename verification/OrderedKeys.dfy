/** The keys of an ordered map, as its iterators visit them. */
module OrderedKeys {
  predicate Ascending(keys: seq<int>) {
    forall i, j :: 0 <= i < j < |keys| ==> keys[i] < keys[j]
  }

  /** The keys of an ordered map, in order. */
  ghost predicate Lists(keys: seq<int>, all: set<int>) {
    Ascending(keys) && forall k :: k in keys <==> k in all
  }

  lemma {:induction false} ListingIsUnique(a: seq<int>, b: seq<int>, all: set<int>)
    requires Lists(a, all) && Lists(b, all)
    ensures a == b
  {
    if a == [] {
      if b != [] { HasElement(b); }
    } else {
      assert a[0] in a && a[0] in b;
      assert b[0] in b && b[0] in a;
      assert a[0] == b[0];
      ListsRest(a, all);
      ListsRest(b, all);
      ListingIsUnique(a[1..], b[1..], all - {a[0]});
    }
  }

  lemma HasElement(s: seq<int>)
    requires s != []
    ensures exists k :: k in s
  {
    var k := s[0];
    assert k in s;
  }

  lemma {:induction false} HasLeast(keys: set<int>)
    requires keys != {}
    ensures exists k :: k in keys && forall j :: j in keys ==> k <= j
    decreases |keys|
  {
    if !exists k :: k in keys { assert false; }
    var k :| k in keys;
    var others := keys - {k};
    assert keys == others + {k};
    if others != {} {
      HasLeast(others);
      var l :| l in others && forall j :: j in others ==> l <= j;
      var least := if k < l then k else l;
      assert least in keys && forall j :: j in keys ==> least <= j;
    } else {
      assert k in keys && forall j :: j in keys ==> k <= j;
    }
  }

  lemma ListsRest(a: seq<int>, all: set<int>)
    requires a != [] && Lists(a, all)
    ensures Lists(a[1..], all - {a[0]})
  {
  }

  ghost function Listing(all: set<int>): (keys: seq<int>)
    ensures Lists(keys, all)
  {
    if all == {} then [] else
      HasLeast(all);
      var key :| key in all && forall j :: j in all ==> key <= j;
      [key] + Listing(all - {key})
  }

  /** Collect the keys of an ordered map. */
  method KeysInOrder(all: set<int>) returns (keys: seq<int>)
    ensures Lists(keys, all)
  {
    keys := [];
    var rest := all;
    while rest != {}
      invariant rest <= all && Lists(keys, all - rest)
      invariant forall i, j :: 0 <= i < |keys| && j in rest ==> keys[i] < j
      decreases |rest|
    {
      HasLeast(rest);
      var key :| key in rest && forall j :: j in rest ==> key <= j;
      keys := keys + [key];
      rest := rest - {key};
    }
  }
}

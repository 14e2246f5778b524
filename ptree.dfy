/**
 * The hierarchical key/value tree the marker file is stored in
 * (boost::property_tree::ptree): every node holds a data string and an
 * ordered list of (key, child) pairs, where a key may occur several times.
 */
module PropertyTree {
  import opened Wrappers

  datatype PTree = PTree(data: string, children: seq<Child>)
  datatype Child = Child(key: string, tree: PTree)

  function Leaf(data: string): PTree {
    PTree(data, [])
  }

  /** The first child stored under `key` (what get_child and get_child_optional find). */
  function Find(cs: seq<Child>, key: string): (r: Option<PTree>)
    ensures r.None? <==> forall k :: 0 <= k < |cs| ==> cs[k].key != key
    ensures r.Some? ==> exists k :: 0 <= k < |cs| && cs[k].key == key && cs[k].tree == r.value &&
                                    forall j :: 0 <= j < k ==> cs[j].key != key
  {
    if cs == [] then None
    else if cs[0].key == key then
      assert cs[0].key == key && cs[0].tree == cs[0].tree;
      Some(cs[0].tree)
    else
      var r := Find(cs[1..], key);
      if r.Some? then
        var k :| 0 <= k < |cs[1..]| && cs[1..][k].key == key && cs[1..][k].tree == r.value &&
                 forall j :: 0 <= j < k ==> cs[1..][j].key != key;
        assert cs[k + 1].key == key && cs[k + 1].tree == r.value;
        assert forall j :: 0 <= j < k + 1 ==> cs[j].key != key by {
          forall j | 0 <= j < k + 1 ensures cs[j].key != key {
            if j > 0 { assert cs[j] == cs[1..][j - 1]; }
          }
        }
        r
      else
        assert forall k :: 0 <= k < |cs| ==> cs[k].key != key by {
          forall k | 0 <= k < |cs| ensures cs[k].key != key {
            if k > 0 { assert cs[k] == cs[1..][k - 1]; }
          }
        }
        r
  }

  /** The children whose key is not in `keys`, in their original order. */
  function Without(cs: seq<Child>, keys: set<string>): (r: seq<Child>)
    ensures |r| <= |cs|
    ensures forall k :: 0 <= k < |r| ==> r[k].key !in keys
  {
    if cs == [] then []
    else if cs[0].key in keys then Without(cs[1..], keys)
    else [cs[0]] + Without(cs[1..], keys)
  }

  /** ptree::erase(key): removes every child stored under `key`. */
  function Erase(t: PTree, key: string): PTree {
    PTree(t.data, Without(t.children, {key}))
  }

  /** ptree::add(key, child): appends a child, even when the key already occurs. */
  function Add(t: PTree, key: string, child: PTree): PTree {
    PTree(t.data, t.children + [Child(key, child)])
  }

  lemma {:induction false} FindAppend(a: seq<Child>, b: seq<Child>, key: string)
    ensures Find(a + b, key) == if Find(a, key).Some? then Find(a, key) else Find(b, key)
  {
    if a != [] {
      assert (a + b)[1..] == a[1..] + b;
      FindAppend(a[1..], b, key);
    } else {
      assert a + b == b;
    }
  }

  lemma {:induction false} WithoutAppend(a: seq<Child>, b: seq<Child>, keys: set<string>)
    ensures Without(a + b, keys) == Without(a, keys) + Without(b, keys)
  {
    if a != [] {
      assert (a + b)[1..] == a[1..] + b;
      WithoutAppend(a[1..], b, keys);
    } else {
      assert a + b == b;
    }
  }

  lemma {:induction false} WithoutWithout(cs: seq<Child>, k1: set<string>, k2: set<string>)
    ensures Without(Without(cs, k1), k2) == Without(cs, k1 + k2)
  {
    if cs != [] {
      WithoutWithout(cs[1..], k1, k2);
      if cs[0].key !in k1 {
        assert ([cs[0]] + Without(cs[1..], k1))[1..] == Without(cs[1..], k1);
      }
    }
  }

  /** Removing keys that do not occur changes nothing. */
  lemma {:induction false} WithoutNoneOf(cs: seq<Child>, keys: set<string>)
    requires forall k :: 0 <= k < |cs| ==> cs[k].key !in keys
    ensures Without(cs, keys) == cs
  {
    if cs != [] {
      WithoutNoneOf(cs[1..], keys);
      assert [cs[0]] + cs[1..] == cs;
    }
  }

  /** Removing every key that occurs leaves nothing. */
  lemma {:induction false} WithoutAllOf(cs: seq<Child>, keys: set<string>)
    requires forall k :: 0 <= k < |cs| ==> cs[k].key in keys
    ensures Without(cs, keys) == []
  {
    if cs != [] {
      WithoutAllOf(cs[1..], keys);
    }
  }

  /** After removing a key, nothing is found under it; other keys are found as before. */
  lemma {:induction false} FindWithout(cs: seq<Child>, keys: set<string>, key: string)
    ensures key in keys ==> Find(Without(cs, keys), key).None?
    ensures key !in keys ==> Find(Without(cs, keys), key) == Find(cs, key)
  {
    if cs != [] {
      FindWithout(cs[1..], keys, key);
      if cs[0].key !in keys {
        assert ([cs[0]] + Without(cs[1..], keys))[1..] == Without(cs[1..], keys);
      }
    }
  }

  /** The child found is the first one under the key. */
  lemma FindFirst(cs: seq<Child>, i: nat, key: string)
    requires i < |cs| && cs[i].key == key
    requires forall j :: 0 <= j < i ==> cs[j].key != key
    ensures Find(cs, key) == Some(cs[i].tree)
  {
    var r := Find(cs, key);
    assert r.Some?;
    var k :| 0 <= k < |cs| && cs[k].key == key && cs[k].tree == r.value &&
             forall j :: 0 <= j < k ==> cs[j].key != key;
    assert k == i;
  }

  /** Removing keys introduces no new key. */
  lemma {:induction false} WithoutKeysIn(cs: seq<Child>, keys: set<string>, allowed: set<string>)
    requires forall k :: 0 <= k < |cs| ==> cs[k].key in allowed
    ensures forall k :: 0 <= k < |Without(cs, keys)| ==> Without(cs, keys)[k].key in allowed
  {
    if cs != [] {
      WithoutKeysIn(cs[1..], keys, allowed);
    }
  }

  /**
   * Erasing a set of keys and appending children under those keys is
   * idempotent: doing it again yields the same children.
   */
  lemma ReplaceKeysTwice(cs: seq<Child>, keys: set<string>, extra: seq<Child>)
    requires forall k :: 0 <= k < |extra| ==> extra[k].key in keys
    ensures Without(Without(cs, keys) + extra, keys) + extra == Without(cs, keys) + extra
  {
    WithoutAppend(Without(cs, keys), extra, keys);
    WithoutWithout(cs, keys, keys);
    assert keys + keys == keys;
    WithoutAllOf(extra, keys);
  }
}

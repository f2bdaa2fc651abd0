/** Python dicts with string keys, as sequences of bindings in insertion
    order: JSON objects, keyword-argument maps and the dicts the schema
    builder fills. */
module Dict {
  import opened Wrappers
  import opened Text

  /** `obj[key]`: the value bound to `key`; when a key repeats, the last binding
      wins. */
  function Get<V>(members: seq<(string, V)>, key: string): (r: Option<V>)
    ensures r.None? <==> forall i :: 0 <= i < |members| ==> members[i].0 != key
    ensures r.Some? ==> exists i :: 0 <= i < |members| && members[i] == (key, r.value)
  {
    if members == [] then None
    else if members[|members| - 1].0 == key then Some(members[|members| - 1].1)
    else Get(members[..|members| - 1], key)
  }

  /** The value found for a key is that of its last binding, and only the
      last binding's value is found. */
  lemma {:induction false} GetLastBinding<V>(members: seq<(string, V)>, key: string, v: V)
    ensures Get(members, key) == Some(v) <==>
      exists i :: 0 <= i < |members| && members[i] == (key, v) &&
                  (forall j :: i < j < |members| ==> members[j].0 != key)
  {
    if members != [] {
      var n := |members| - 1;
      GetLastBinding(members[..n], key, v);
      if members[n].0 != key && Get(members, key) != Some(v) {
        if i :| 0 <= i < |members| && members[i] == (key, v) &&
                (forall j :: i < j < |members| ==> members[j].0 != key) {
          assert i < n;
          assert forall j :: i < j < n ==> members[..n][j].0 != key;
        }
      }
    }
  }

  function Keys<V>(members: seq<(string, V)>): (r: seq<string>)
    ensures |r| == |members|
    ensures forall i :: 0 <= i < |members| ==> r[i] == members[i].0
  {
    seq(|members|, i requires 0 <= i < |members| => members[i].0)
  }

  function Values<V>(members: seq<(string, V)>): (r: seq<V>)
    ensures |r| == |members|
    ensures forall i :: 0 <= i < |members| ==> r[i] == members[i].1
  {
    seq(|members|, i requires 0 <= i < |members| => members[i].1)
  }

  /** With no key bound twice, looking a key up finds its one binding. */
  lemma {:induction false} GetUnique<V>(members: seq<(string, V)>, i: nat)
    requires NoDuplicates(Keys(members))
    requires i < |members|
    ensures Get(members, members[i].0) == Some(members[i].1)
  {
    var n := |members| - 1;
    if i < n {
      assert Keys(members)[i] != Keys(members)[n];
      assert Keys(members[..n]) == Keys(members)[..n];
      GetUnique(members[..n], i);
    }
  }

  /** Every binding of `key` rebound to `value`, in place. */
  function Rebind<V>(members: seq<(string, V)>, key: string, value: V): seq<(string, V)>
  {
    if members == [] then []
    else
      var n := |members| - 1;
      Rebind(members[..n], key, value) + [if members[n].0 == key then (key, value) else members[n]]
  }

  /** Rebinding keeps every key where it stands. */
  lemma {:induction false} RebindKeys<V>(members: seq<(string, V)>, key: string, value: V)
    ensures Keys(Rebind(members, key, value)) == Keys(members)
  {
    if members != [] {
      var n := |members| - 1;
      RebindKeys(members[..n], key, value);
      assert Keys(members)[..n] == Keys(members[..n]);
    }
  }

  lemma {:induction false} RebindSpec<V>(members: seq<(string, V)>, key: string, value: V)
    ensures Keys(Rebind(members, key, value)) == Keys(members)
    ensures forall k :: k != key ==> Get(Rebind(members, key, value), k) == Get(members, k)
    ensures key in Keys(members) ==> Get(Rebind(members, key, value), key) == Some(value)
  {
    RebindKeys(members, key, value);
    if members != [] {
      var n := |members| - 1;
      RebindSpec(members[..n], key, value);
      var front := Rebind(members[..n], key, value);
      var r := Rebind(members, key, value);
      assert r[..n] == front;
      assert Keys(members)[..n] == Keys(members[..n]);
    }
  }

  /** `d[key] = value`: an existing binding is replaced where it stands, a new
      key goes last. */
  function Put<V>(members: seq<(string, V)>, key: string, value: V): seq<(string, V)>
  {
    if key in Keys(members) then Rebind(members, key, value) else members + [(key, value)]
  }

  /** After `d[key] = value` the key is bound to the value and every other key
      to what it was; the keys keep their order, a new key going last. */
  lemma PutSpec<V>(members: seq<(string, V)>, key: string, value: V)
    ensures Get(Put(members, key, value), key) == Some(value)
    ensures forall k :: k != key ==> Get(Put(members, key, value), k) == Get(members, k)
    ensures key in Keys(members) ==> Keys(Put(members, key, value)) == Keys(members)
    ensures key !in Keys(members) ==> Keys(Put(members, key, value)) == Keys(members) + [key]
  {
    if key in Keys(members) {
      RebindSpec(members, key, value);
    } else {
      var r := members + [(key, value)];
      assert r[..|members|] == members;
    }
  }

  /** Assigning a key the dict does not hold appends its binding. */
  lemma PutFresh<V>(members: seq<(string, V)>, key: string, value: V)
    requires key !in Keys(members)
    ensures Put(members, key, value) == members + [(key, value)]
  {
  }

  /** `d[key] = value` never binds a key twice. */
  lemma PutKeepsKeysUnique<V>(members: seq<(string, V)>, key: string, value: V)
    requires NoDuplicates(Keys(members))
    ensures NoDuplicates(Keys(Put(members, key, value)))
  {
    PutSpec(members, key, value);
  }
}

/** `collections.OrderedDict` on the model's `Record`: item assignment and `update`.
    Assigning to a key that is already present replaces its value where it stands;
    assigning to a new key appends it. */
module OrderedDict {
  import opened PyJson

  /** The keys of `r`, in order. */
  function Keys(r: Record): seq<string> {
    seq(|r|, i requires 0 <= i < |r| => r[i].0)
  }

  /** `r.get(k)`: the value of the first item with key `k`. */
  function Lookup(r: Record, k: string): Option<Json> {
    if r == [] then None else if r[0].0 == k then Some(r[0].1) else Lookup(r[1..], k)
  }

  /** A dictionary never holds a key twice. */
  predicate UniqueKeys(r: Record) {
    forall i, j :: 0 <= i < j < |r| ==> r[i].0 != r[j].0
  }

  /** A key is found exactly when it is among the keys. */
  lemma LookupKeys(r: Record, k: string)
    ensures Lookup(r, k).Some? <==> k in Keys(r)
  {
    LookupMissing(r, k);
    if k in Keys(r) {
      var i :| 0 <= i < |r| && Keys(r)[i] == k;
      assert r[i].0 == k;
    }
    if Lookup(r, k).Some? {
      var i :| 0 <= i < |r| && r[i].0 == k;
      assert Keys(r)[i] == k;
    }
  }

  /** The keys of a concatenation are the keys of its parts. */
  lemma KeysConcat(a: Record, b: Record)
    ensures Keys(a + b) == Keys(a) + Keys(b)
  {
    assert forall i :: 0 <= i < |a| ==> (a + b)[i] == a[i];
    assert forall i :: |a| <= i < |a + b| ==> (a + b)[i] == b[i - |a|];
  }

  /** In a dictionary, each key's first lookup finds its own item. */
  lemma {:induction false} LookupUnique(r: Record)
    requires UniqueKeys(r)
    ensures forall i :: 0 <= i < |r| ==> Lookup(r, r[i].0) == Some(r[i].1)
  {
    if r != [] {
      assert UniqueKeys(r[1..]) by {
        assert forall i :: 0 <= i < |r| - 1 ==> r[1..][i] == r[i + 1];
      }
      LookupUnique(r[1..]);
      assert forall i :: 1 <= i < |r| ==> r[i] == r[1..][i - 1];
    }
  }

  /** A lookup in a concatenation finds the key in the first part before the second. */
  lemma {:induction false} LookupConcat(a: Record, b: Record, k: string)
    ensures Lookup(a + b, k) == if Lookup(a, k).Some? then Lookup(a, k) else Lookup(b, k)
  {
    if a == [] {
      assert a + b == b;
    } else {
      assert (a + b)[0] == a[0] && (a + b)[1..] == a[1..] + b;
      LookupConcat(a[1..], b, k);
    }
  }

  /** Two dictionaries with no key in common concatenate to a dictionary. */
  lemma UniqueConcat(a: Record, b: Record)
    requires UniqueKeys(a) && UniqueKeys(b)
    requires forall i, j :: 0 <= i < |a| && 0 <= j < |b| ==> a[i].0 != b[j].0
    ensures UniqueKeys(a + b)
  {
    forall i, j | 0 <= i < j < |a + b| ensures (a + b)[i].0 != (a + b)[j].0 {
      if j < |a| {
        assert (a + b)[i] == a[i] && (a + b)[j] == a[j];
      } else if i < |a| {
        assert (a + b)[i] == a[i] && (a + b)[j] == b[j - |a|];
      } else {
        assert (a + b)[i] == b[i - |a|] && (a + b)[j] == b[j - |a|];
      }
    }
  }

  /** `r[k] = v`. */
  function Put(r: Record, k: string, v: Json): (r': Record)
    ensures |r'| == if Lookup(r, k).Some? then |r| else |r| + 1
    ensures forall i :: 0 <= i < |r| ==> r'[i].0 == r[i].0
    ensures Lookup(r', k) == Some(v)
    ensures forall k' :: k' != k ==> Lookup(r', k') == Lookup(r, k')
    ensures Lookup(r, k).None? ==> r' == r + [(k, v)]
    ensures UniqueKeys(r) ==> UniqueKeys(r')
  {
    if r == [] then [(k, v)]
    else if r[0].0 == k then [(k, v)] + r[1..]
    else
      var rest := Put(r[1..], k, v);
      LookupMissing(r[1..], k);
      [r[0]] + rest
  }

  /** A key is found exactly when some item carries it. */
  lemma {:induction false} LookupMissing(r: Record, k: string)
    ensures Lookup(r, k).None? <==> forall i :: 0 <= i < |r| ==> r[i].0 != k
  {
    if r != [] {
      LookupMissing(r[1..], k);
      if r[0].0 != k {
        assert forall i :: 1 <= i < |r| ==> r[i] == r[1..][i - 1];
      }
    }
  }

  /** `r.update(fs)`: the items of `fs` are assigned one after the other. */
  function Update(r: Record, fs: Record): (r': Record)
    ensures |r'| >= |r|
    ensures forall i :: 0 <= i < |r| ==> r'[i].0 == r[i].0
    ensures forall k :: Lookup(fs, k).None? ==> Lookup(r', k) == Lookup(r, k)
    ensures UniqueKeys(fs) ==> forall k :: Lookup(fs, k).Some? ==> Lookup(r', k) == Lookup(fs, k)
    ensures forall k :: Lookup(r', k).Some? <==> Lookup(r, k).Some? || Lookup(fs, k).Some?
    ensures UniqueKeys(r) ==> UniqueKeys(r')
    ensures UniqueKeys(fs) ==> Keys(r') == Keys(r) + NewKeys(Keys(r), Keys(fs))
    decreases |fs|
  {
    if fs == [] then r
    else
      var (k, v) := fs[0];
      var step := Put(r, k, v);
      var rest := Update(step, fs[1..]);
      assert forall k' :: Lookup(fs, k') == if k' == k then Some(v) else Lookup(fs[1..], k');
      UniqueTail(fs);
      if UniqueKeys(fs) then
        UpdateStepKeys(r, fs);
        rest
      else
        rest
  }

  /** The keys of `keys` that are not in `present`, in the order of `keys`. */
  function NewKeys(present: seq<string>, keys: seq<string>): seq<string> {
    if keys == [] then []
    else (if keys[0] in present then [] else [keys[0]]) + NewKeys(present, keys[1..])
  }

  /** The new keys are exactly the listed keys that are not present. */
  lemma {:induction false} NewKeysMembers(present: seq<string>, keys: seq<string>)
    ensures forall x :: x in NewKeys(present, keys) <==> x in keys && x !in present
  {
    if keys != [] {
      NewKeysMembers(present, keys[1..]);
      assert forall x :: x in keys <==> x == keys[0] || x in keys[1..];
    }
  }

  /** Keys the list does not mention do not change which of its keys are new. */
  lemma {:induction false} NewKeysIgnore(present: seq<string>, extra: seq<string>, keys: seq<string>)
    requires forall x :: x in extra ==> x !in keys
    ensures NewKeys(present + extra, keys) == NewKeys(present, keys)
  {
    if keys != [] {
      assert keys[0] !in extra;
      assert forall x :: x in keys[1..] ==> x in keys;
      NewKeysIgnore(present, extra, keys[1..]);
    }
  }

  /** One assignment of `update`, seen on the key lists: a present key adds nothing, a new key
      is appended. */
  lemma UpdateStepKeys(r: Record, fs: Record)
    requires fs != [] && UniqueKeys(fs)
    ensures var step := Put(r, fs[0].0, fs[0].1);
      Keys(step) + NewKeys(Keys(step), Keys(fs[1..])) == Keys(r) + NewKeys(Keys(r), Keys(fs))
  {
    var (k, v) := fs[0];
    KeysTail(fs);
    UniqueTail(fs);
    LookupKeys(fs[1..], k);
    LookupKeys(r, k);
    PutKeys(r, k, v);
    NewKeysStep(Keys(r), Keys(fs));
  }

  /** The key list after one assignment. */
  lemma PutKeys(r: Record, k: string, v: Json)
    ensures Keys(Put(r, k, v)) == if k in Keys(r) then Keys(r) else Keys(r) + [k]
  {
    LookupKeys(r, k);
    if k !in Keys(r) {
      KeysConcat(r, [(k, v)]);
    }
  }

  /** Taking the first key of a list without repeats into `present` leaves the rest's new keys. */
  lemma NewKeysStep(present: seq<string>, keys: seq<string>)
    requires keys != [] && keys[0] !in keys[1..]
    ensures var next := if keys[0] in present then present else present + [keys[0]];
      next + NewKeys(next, keys[1..]) == present + NewKeys(present, keys)
  {
    assert NewKeys(present, keys) == (if keys[0] in present then [] else [keys[0]]) + NewKeys(present, keys[1..]);
    if keys[0] !in present {
      NewKeysIgnore(present, [keys[0]], keys[1..]);
      var rest := NewKeys(present, keys[1..]);
      assert present + [keys[0]] + rest == present + ([keys[0]] + rest);
    }
  }

  lemma KeysTail(fs: Record)
    requires fs != []
    ensures Keys(fs) != [] && Keys(fs)[0] == fs[0].0 && Keys(fs)[1..] == Keys(fs[1..])
  {
  }


  /** The items after the first of a dictionary do not repeat the first key. */
  lemma UniqueTail(fs: Record)
    requires fs != []
    ensures UniqueKeys(fs) ==> UniqueKeys(fs[1..]) && Lookup(fs[1..], fs[0].0).None?
  {
    if UniqueKeys(fs) {
      assert forall i :: 0 <= i < |fs| - 1 ==> fs[1..][i] == fs[i + 1];
      LookupMissing(fs[1..], fs[0].0);
    }
  }

  /** Updating with keys that `r` already holds keeps its key list exactly. */
  lemma {:induction false} UpdateKeepsKeys(r: Record, fs: Record)
    requires forall i :: 0 <= i < |fs| ==> Lookup(r, fs[i].0).Some?
    ensures Keys(Update(r, fs)) == Keys(r)
    decreases |fs|
  {
    if fs != [] {
      var step := Put(r, fs[0].0, fs[0].1);
      assert Keys(step) == Keys(r);
      forall i | 0 <= i < |fs[1..]| ensures Lookup(step, fs[1..][i].0).Some? {
        assert fs[1..][i] == fs[i + 1];
        if fs[i + 1].0 != fs[0].0 {
          assert Lookup(step, fs[i + 1].0) == Lookup(r, fs[i + 1].0);
        }
      }
      UpdateKeepsKeys(step, fs[1..]);
    }
  }

  /** Updating with keys that `r` does not hold yet appends them, in order, with their values. */
  lemma {:induction false} UpdateAppends(r: Record, fs: Record)
    requires UniqueKeys(fs)
    requires forall i :: 0 <= i < |fs| ==> Lookup(r, fs[i].0).None?
    ensures Update(r, fs) == r + fs
    decreases |fs|
  {
    if fs != [] {
      var step := r + [fs[0]];
      assert Put(r, fs[0].0, fs[0].1) == step;
      assert Update(r, fs) == Update(step, fs[1..]);
      FreshAfterFirst(r, fs);
      UpdateAppends(step, fs[1..]);
      AppendFirst(r, fs);
    }
  }

  lemma AppendFirst(r: Record, fs: Record)
    requires fs != []
    ensures r + [fs[0]] + fs[1..] == r + fs
  {
    assert fs == [fs[0]] + fs[1..];
  }

  /** The keys after the first of `fs` are still fresh once the first has been appended. */
  lemma FreshAfterFirst(r: Record, fs: Record)
    requires fs != [] && UniqueKeys(fs)
    requires forall i :: 0 <= i < |fs| ==> Lookup(r, fs[i].0).None?
    ensures UniqueKeys(fs[1..])
    ensures forall i :: 0 <= i < |fs[1..]| ==> Lookup(r + [fs[0]], fs[1..][i].0).None?
  {
    UniqueTail(fs);
    forall i | 0 <= i < |fs[1..]| ensures Lookup(r + [fs[0]], fs[1..][i].0).None? {
      assert fs[1..][i] == fs[i + 1];
      LookupConcat(r, [fs[0]], fs[i + 1].0);
    }
  }
}

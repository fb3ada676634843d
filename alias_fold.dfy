/** How a Python dictionary literal with repeated keys evaluates: the entries
    are inserted left to right, so a later entry overwrites an earlier one with
    the same key. */
module AliasFold {
  import opened Wrappers

  /** One `"Korean name": "provider query"` entry of the alias literal. */
  type Alias = (string, string)

  /** Evaluation of the literal: a left fold that inserts each entry in turn. */
  function FoldLeft(acc: map<string, string>, entries: seq<Alias>): (r: map<string, string>)
    ensures acc.Keys <= r.Keys && |r.Keys| <= |acc.Keys| + |entries|
    decreases entries
  {
    if entries == [] then acc else FoldLeft(acc[entries[0].0 := entries[0].1], entries[1..])
  }

  /** `m.get(k)`. */
  function Lookup(m: map<string, string>, k: string): Option<string>
  {
    if k in m then Some(m[k]) else None
  }

  /** Reference meaning of a key: the value of the last entry that carries it. */
  function LastBinding(entries: seq<Alias>, k: string): Option<string>
  {
    if entries == [] then None
    else
      var later := LastBinding(entries[1..], k);
      if later.Some? then later
      else if entries[0].0 == k then Some(entries[0].1)
      else None
  }

  /** Folding over the entries yields, for every key, the last entry's value,
      and leaves keys that no entry carries as they were in the accumulator. */
  lemma {:induction false} FoldLeftLookup(acc: map<string, string>, entries: seq<Alias>, k: string)
    ensures Lookup(FoldLeft(acc, entries), k)
         == if LastBinding(entries, k).Some? then LastBinding(entries, k) else Lookup(acc, k)
    decreases entries
  {
    if entries != [] {
      FoldLeftLookup(acc[entries[0].0 := entries[0].1], entries[1..], k);
    }
  }

  /** The dictionary literal binds every key to its last entry's value and binds
      nothing else ("last wins"). */
  lemma DictLiteralLastWins(entries: seq<Alias>, k: string)
    ensures Lookup(FoldLeft(map[], entries), k) == LastBinding(entries, k)
  {
    FoldLeftLookup(map[], entries, k);
  }

  /** A key is unbound exactly when no entry carries it. */
  lemma {:induction false} LastBindingNone(entries: seq<Alias>, k: string)
    ensures LastBinding(entries, k).None? <==> forall j | 0 <= j < |entries| :: entries[j].0 != k
  {
    if entries != [] {
      LastBindingNone(entries[1..], k);
      assert forall j | 1 <= j < |entries| :: entries[j] == entries[1..][j - 1];
    }
  }

  /** An entry that no later entry overrides determines its key's binding. */
  lemma {:induction false} LastBindingAt(entries: seq<Alias>, i: nat)
    requires i < |entries|
    requires forall j | i < j < |entries| :: entries[j].0 != entries[i].0
    ensures LastBinding(entries, entries[i].0) == Some(entries[i].1)
  {
    var k := entries[i].0;
    if i == 0 {
      LastBindingNone(entries[1..], k);
    } else {
      assert entries[1..][i - 1] == entries[i];
      LastBindingAt(entries[1..], i - 1);
    }
  }

  /** Conversely, a binding comes from an entry that no later entry overrides. */
  lemma {:induction false} LastBindingFrom(entries: seq<Alias>, k: string)
    requires LastBinding(entries, k).Some?
    ensures exists i | 0 <= i < |entries| ::
      entries[i] == (k, LastBinding(entries, k).value)
      && forall j | i < j < |entries| :: entries[j].0 != k
  {
    var v := LastBinding(entries, k).value;
    var later := LastBinding(entries[1..], k);
    if later.Some? {
      LastBindingFrom(entries[1..], k);
      var i :| 0 <= i < |entries[1..]| && entries[1..][i] == (k, v)
        && forall j | i < j < |entries[1..]| :: entries[1..][j].0 != k;
      assert entries[i + 1] == (k, v);
      assert forall j | i + 1 < j < |entries| :: entries[j] == entries[1..][j - 1];
    } else {
      LastBindingNone(entries[1..], k);
      assert forall j | 0 < j < |entries| :: entries[j] == entries[1..][j - 1];
    }
  }

  /** Bindings of a concatenation: the second part overrides the first. */
  lemma {:induction false} LastBindingAppend(a: seq<Alias>, b: seq<Alias>, k: string)
    ensures LastBinding(a + b, k)
         == if LastBinding(b, k).Some? then LastBinding(b, k) else LastBinding(a, k)
  {
    if a != [] {
      assert (a + b)[1..] == a[1..] + b;
      LastBindingAppend(a[1..], b, k);
    } else {
      assert a + b == b;
    }
  }

  /** The alias literal as it is written: one group of entries per region, in order. */
  function Flatten(regions: seq<seq<Alias>>): seq<Alias>
  {
    if regions == [] then [] else regions[0] + Flatten(regions[1..])
  }

  /** No entry of `entries` carries key `k`. */
  predicate Lacks(entries: seq<Alias>, k: string)
  {
    forall i | 0 <= i < |entries| :: entries[i].0 != k
  }

  /** A key that no region carries is unbound. */
  lemma {:induction false} UnboundInAllRegions(regions: seq<seq<Alias>>, k: string)
    requires forall j | 0 <= j < |regions| :: Lacks(regions[j], k)
    ensures LastBinding(Flatten(regions), k) == None
  {
    if regions != [] {
      assert forall j | 0 <= j < |regions[1..]| :: regions[1..][j] == regions[j + 1];
      UnboundInAllRegions(regions[1..], k);
      LastBindingNone(regions[0], k);
      LastBindingAppend(regions[0], Flatten(regions[1..]), k);
    }
  }

  /** The entry at position `p` of region `m` is the binding of its key when no
      later entry of that region and no later region carries the key. */
  lemma {:induction false} LastInRegion(regions: seq<seq<Alias>>, m: nat, p: nat)
    requires m < |regions| && p < |regions[m]|
    requires forall q | p < q < |regions[m]| :: regions[m][q].0 != regions[m][p].0
    requires forall j | m < j < |regions| :: Lacks(regions[j], regions[m][p].0)
    ensures LastBinding(Flatten(regions), regions[m][p].0) == Some(regions[m][p].1)
  {
    var k := regions[m][p].0;
    assert forall j | 0 <= j < |regions[1..]| :: regions[1..][j] == regions[j + 1];
    LastBindingAppend(regions[0], Flatten(regions[1..]), k);
    if m == 0 {
      UnboundInAllRegions(regions[1..], k);
      LastBindingAt(regions[0], p);
    } else {
      LastInRegion(regions[1..], m - 1, p);
    }
  }
}

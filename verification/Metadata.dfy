/**
 Event metadata: a handful of "frp." entries and, under their own prefixes, copies of the
 metadata maps that frp sent.
 */
module Metadata {

  type Metas = map<string, string>

  /** The entries of a map, each key with a prefix. */
  function Prefixed(prefix: string, metas: Metas): Metas {
    assert forall k: string :: (prefix + k)[|prefix|..] == k;
    map k | k in metas :: prefix + k := metas[k]
  }

  lemma PrefixedAt(prefix: string, metas: Metas, k: string)
    ensures prefix + k in Prefixed(prefix, metas) <==> k in metas
    ensures k in metas ==> Prefixed(prefix, metas)[prefix + k] == metas[k]
  {
    assert forall k: string :: (prefix + k)[|prefix|..] == k;
  }

  /** What the entries with a prefix came from. */
  function Stripped(prefix: string, all: Metas): (metas: Metas)
    ensures forall k :: k in metas <==> prefix + k in all
    ensures forall k :: k in metas ==> metas[k] == all[prefix + k]
  {
    assert forall k :: k in all && prefix <= k ==> k == prefix + k[|prefix|..];
    assert forall k: string :: (prefix + k)[|prefix|..] == k;
    var keys := set k | k in all && prefix <= k :: k[|prefix|..];
    map k | k in keys :: all[prefix + k]
  }

  function Merged(base: Metas, prefix: string, metas: Metas): Metas {
    base + Prefixed(prefix, metas)
  }

  /** The merging loop; the order in which it meets the entries is up to the map. */
  method Merge(base: Metas, prefix: string, metas: Metas) returns (all: Metas)
    ensures all == Merged(base, prefix, metas)
  {
    all := base;
    var left := metas.Keys;
    ghost var seen: Metas := map[];
    MergedNothing(base, prefix);
    while left != {}
      invariant left <= metas.Keys && Partial(seen, metas, left)
      invariant all == Merged(base, prefix, seen)
    {
      var k :| k in left;
      MergedGrows(base, prefix, seen, k, metas[k]);
      all := all[prefix + k := metas[k]];
      PartialGrows(seen, metas, left, k);
      left := left - {k};
      seen := seen[k := metas[k]];
    }
    assert seen == metas;
  }

  /** `seen` is `metas` without the keys in `left`. */
  predicate Partial(seen: Metas, metas: Metas, left: set<string>) {
    seen.Keys == metas.Keys - left && forall k :: k in seen ==> seen[k] == metas[k]
  }

  lemma PartialGrows(seen: Metas, metas: Metas, left: set<string>, k: string)
    requires k in metas && k in left && Partial(seen, metas, left)
    ensures Partial(seen[k := metas[k]], metas, left - {k})
  {
  }

  lemma MergedNothing(base: Metas, prefix: string)
    ensures Merged(base, prefix, map[]) == base
  {
  }

  lemma PrefixedGrows(prefix: string, seen: Metas, k: string, v: string)
    ensures Prefixed(prefix, seen[k := v]) == Prefixed(prefix, seen)[prefix + k := v]
  {
    var l, r := Prefixed(prefix, seen[k := v]), Prefixed(prefix, seen)[prefix + k := v];
    assert (prefix + k)[|prefix|..] == k;
    forall full: string ensures full in l <==> full in r {
      if prefix <= full && full[|prefix|..] == k {
        assert full == prefix + k;
      }
    }
    forall full: string | full in l ensures l[full] == r[full] {
      if full[|prefix|..] == k {
        assert full == prefix + k;
      }
    }
  }

  lemma MergedGrows(base: Metas, prefix: string, seen: Metas, k: string, v: string)
    ensures Merged(base, prefix, seen[k := v]) == Merged(base, prefix, seen)[prefix + k := v]
  {
    PrefixedGrows(prefix, seen, k, v);
    UpdateOfSum(base, Prefixed(prefix, seen), prefix + k, v);
  }

  lemma UpdateOfSum(a: Metas, b: Metas, k: string, v: string)
    ensures a + b[k := v] == (a + b)[k := v]
  {
  }

  /** The prefixes differ in their first character. */
  predicate Apart(p: string, q: string) {
    p != [] && q != [] && p[0] != q[0]
  }

  /** Entries under another prefix are left alone, neither overwritten nor added to. */
  lemma MergeLeavesOthers(base: Metas, prefix: string, metas: Metas, other: string, k: string)
    requires Apart(prefix, other) && other <= k
    ensures k in Merged(base, prefix, metas) <==> k in base
    ensures k in base ==> Merged(base, prefix, metas)[k] == base[k]
  {
    assert k[0] == other[0];
  }

  /** The merged-in map can be read back. */
  lemma MergeIsRecoverable(base: Metas, prefix: string, metas: Metas)
    requires forall k :: k in base ==> !(prefix <= k)
    ensures Stripped(prefix, Merged(base, prefix, metas)) == metas
  {
    forall k: string
      ensures prefix + k in Merged(base, prefix, metas) <==> k in metas
      ensures k in metas ==> Merged(base, prefix, metas)[prefix + k] == metas[k]
    {
      assert prefix + k !in base;
      PrefixedAt(prefix, metas, k);
    }
  }

  /** Merging under another prefix does not change what can be read back. */
  lemma MergeKeepsRecoverable(base: Metas, prefix: string, metas: Metas, other: string)
    requires Apart(prefix, other)
    ensures Stripped(other, Merged(base, prefix, metas)) == Stripped(other, base)
  {
    forall k: string
      ensures other + k in Merged(base, prefix, metas) <==> other + k in base
      ensures other + k in base ==> Merged(base, prefix, metas)[other + k] == base[other + k]
    {
      MergeLeavesOthers(base, prefix, metas, other, other + k);
    }
  }
}

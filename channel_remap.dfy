/** createShader's override for indexed texture rendering: channels that fall
    in the indexed range [0, n) are moved, in slot order, to n, n+1, ... */
module ChannelRemap {

  /** The test createShader applies to each mTexture entry. */
  predicate Indexed(x: int, n: int)
  {
    -1 < x < n
  }

  /** How many entries of `s` lie in the indexed range. */
  function CountIndexed(s: seq<int>, n: int): (c: nat)
    ensures c <= |s|
    decreases |s|
  {
    if s == [] then 0
    else CountIndexed(s[..|s| - 1], n) + (if Indexed(s[|s| - 1], n) then 1 else 0)
  }

  /** mTexture after the override loop: each indexed entry takes the running
      counter, which starts at n; every other entry stays. */
  function Remapped(s: seq<int>, n: int): (r: seq<int>)
    ensures |r| == |s|
    decreases |s|
  {
    if s == [] then []
    else
      var p := s[..|s| - 1];
      Remapped(p, n) + [if Indexed(s[|s| - 1], n) then n + CountIndexed(p, n) else s[|s| - 1]]
  }

  /** Counting one entry further along. */
  lemma CountIndexedStep(s: seq<int>, n: int, i: nat)
    requires i < |s|
    ensures CountIndexed(s[..i + 1], n) == CountIndexed(s[..i], n) + (if Indexed(s[i], n) then 1 else 0)
  {
    assert s[..i + 1][..i] == s[..i];
  }

  /** Entry k after the override: n plus the number of indexed entries before
      it when it was indexed, and unchanged otherwise. */
  lemma {:induction false} RemappedAt(s: seq<int>, n: int, k: nat)
    requires k < |s|
    ensures Remapped(s, n)[k] == if Indexed(s[k], n) then n + CountIndexed(s[..k], n) else s[k]
    decreases |s|
  {
    var p := s[..|s| - 1];
    if k < |s| - 1 {
      RemappedAt(p, n, k);
      assert p[k] == s[k] && p[..k] == s[..k];
    } else {
      assert p == s[..k];
    }
  }

  /** Counting over a longer prefix counts at least as many, and strictly
      more when the longer one adds an indexed entry. */
  lemma {:induction false} CountIndexedGrows(s: seq<int>, n: int, i: nat, j: nat)
    requires i < j <= |s|
    ensures CountIndexed(s[..i], n) + (if Indexed(s[i], n) then 1 else 0) <= CountIndexed(s[..j], n)
    decreases j - i
  {
    assert s[..j][..j - 1] == s[..j - 1];
    if j - 1 > i {
      CountIndexedGrows(s, n, i, j - 1);
    } else {
      assert s[..j - 1] == s[..i];
    }
  }

  /** What the override promises: indexed entries are rewritten, in slot
      order, to consecutive channels from n; the rest are untouched; no entry
      is left in the indexed range. */
  lemma RemappedProperties(s: seq<int>, n: int)
    ensures forall k :: 0 <= k < |s| && !Indexed(s[k], n) ==> Remapped(s, n)[k] == s[k]
    ensures forall k :: 0 <= k < |s| && Indexed(s[k], n) ==> Remapped(s, n)[k] == n + CountIndexed(s[..k], n)
    ensures forall k :: 0 <= k < |s| ==> !Indexed(Remapped(s, n)[k], n)
    ensures forall i, j :: 0 <= i < j < |s| && Indexed(s[i], n) && Indexed(s[j], n) ==>
              Remapped(s, n)[i] < Remapped(s, n)[j]
  {
    forall k | 0 <= k < |s| ensures Remapped(s, n)[k] == if Indexed(s[k], n) then n + CountIndexed(s[..k], n) else s[k] {
      RemappedAt(s, n, k);
    }
    forall i, j | 0 <= i < j < |s| && Indexed(s[i], n) && Indexed(s[j], n)
      ensures Remapped(s, n)[i] < Remapped(s, n)[j]
    {
      CountIndexedGrows(s, n, i, j);
    }
  }

  /** The remapped channels are not collision-free: an entry already at n
      or above can meet a moved one. */
  lemma RemapCanCollide()
    ensures Remapped([0, 1], 1) == [1, 1]
  {
    assert [0, 1][..1] == [0];
    assert [0][..0] == [];
  }
}

/** The attribute table and mask that LLGLSLShader::mapAttributes fills after
    a successful link. */
module AttributeTables {

  /** The shift amount `i` of `1 << i`, built by counting so that the
      verifier never converts an integer to a bit-vector directly. */
  function Bv(i: nat): (b: bv32)
    requires i < 32
    ensures b as int == i && b < 32
  {
    if i == 0 then 0 else Bv(i - 1) + 1
  }

  /** Bit j of `m` is set. */
  predicate BitSet(m: bv32, j: nat)
    requires j < 32
  {
    (m >> Bv(j)) & 1 == 1
  }

  /** `mask |= 1 << i`. */
  function WithBit(mask: bv32, i: nat): bv32
    requires i < 32
  {
    mask | (1 << Bv(i))
  }

  /** mAttributeMask after reading back the reserved attributes: bit i is set
      when the driver reported a location for reserved attribute i. */
  function FoundMask(locs: seq<int>): (m: bv32)
    requires |locs| <= 32
    decreases |locs|
  {
    if locs == [] then 0
    else if locs[|locs| - 1] != -1 then WithBit(FoundMask(locs[..|locs| - 1]), |locs| - 1)
    else FoundMask(locs[..|locs| - 1])
  }

  /** One step of mapAttributes' loop: attribute i found adds bit i. */
  lemma FoundMaskStep(locs: seq<int>, i: nat)
    requires i < |locs| <= 32
    ensures FoundMask(locs[..i + 1]) ==
              if locs[i] != -1 then WithBit(FoundMask(locs[..i]), i) else FoundMask(locs[..i])
  {
    assert locs[..i + 1][..i] == locs[..i];
  }

  /** A bit of `a | b` is set exactly when it is set in `a` or in `b`. */
  lemma OrBit(a: bv32, b: bv32, j: bv32)
    requires j < 32
    ensures ((a | b) >> j) & 1 == 1 <==> (a >> j) & 1 == 1 || (b >> j) & 1 == 1
  {
  }

  /** `1 << n` has bit n set and no other. */
  lemma OneBit(n: bv32, j: bv32)
    requires n < 32 && j < 32
    ensures ((1 as bv32 << n) >> j) & 1 == 1 <==> j == n
  {
  }

  /** The empty mask has no bit set. */
  lemma ZeroBit(j: bv32)
    requires j < 32
    ensures !((0 as bv32 >> j) & 1 == 1)
  {
  }

  /** Setting bit n leaves every other bit as it was. */
  lemma WithBitBit(m: bv32, n: nat, j: nat)
    requires n < 32 && j < 32
    ensures BitSet(WithBit(m, n), j) <==> BitSet(m, j) || j == n
  {
    var bn, bj := Bv(n), Bv(j);
    OrBit(m, 1 << bn, bj);
    OneBit(bn, bj);
    assert bj == bn ==> j == n;
  }

  /** Bit j of the mask is set exactly when reserved attribute j was found. */
  lemma {:induction false} FoundMaskBit(locs: seq<int>, j: nat)
    requires |locs| <= 32 && j < 32
    ensures BitSet(FoundMask(locs), j) <==> j < |locs| && locs[j] != -1
    decreases |locs|
  {
    if locs == [] {
      ZeroBit(Bv(j));
    } else {
      var n := |locs| - 1;
      var p := locs[..n];
      FoundMaskBit(p, j);
      if locs[n] != -1 {
        WithBitBit(FoundMask(p), n, j);
      }
      if j < n {
        assert p[j] == locs[j];
      }
    }
  }
}

/** The index buffer the renderer builds once: two triangles per quad slot. */
module IndexPattern {

  /** Number of quads (sprites) one batch can hold. */
  const MAX_SPRITES: nat := 60000

  /** Number of entries of the index buffer: six per quad slot. */
  const INDICES_SIZE: nat := MAX_SPRITES * 6

  /** The six indices of quad slot q: the triangles (4q, 4q+1, 4q+2) and (4q+2, 4q+3, 4q).
      All six address slot q's own four vertices, and the triangles share the diagonal
      from vertex 4q to vertex 4q+2. */
  function QuadIndices(q: nat): (ixs: seq<nat>)
    ensures |ixs| == 6
    ensures forall k :: 0 <= k < 6 ==> 4 * q <= ixs[k] < 4 * q + 4
    ensures ixs[0] == ixs[5] == 4 * q && ixs[2] == ixs[3] == 4 * q + 2
  {
    [4 * q, 4 * q + 1, 4 * q + 2, 4 * q + 2, 4 * q + 3, 4 * q]
  }

  /** The index buffer for n quad slots: slot 0's six indices, then slot 1's, and so on. */
  function Pattern(n: nat): (p: seq<nat>)
    ensures |p| == 6 * n
  {
    if n == 0 then [] else Pattern(n - 1) + QuadIndices(n - 1)
  }

  /** The pattern for fewer slots is a prefix of the pattern for more. */
  lemma {:induction false} PatternPrefix(m: nat, n: nat)
    requires m <= n
    ensures Pattern(m) == Pattern(n)[..6 * m]
  {
    if m < n {
      PatternPrefix(m, n - 1);
      assert Pattern(n)[..6 * (n - 1)] == Pattern(n - 1);
    }
  }

  /** Entries 6q .. 6q+5 of the index buffer are 4q, 4q+1, 4q+2, 4q+2, 4q+3, 4q; with
      QuadIndices' contract, each slot's six indices stay inside that slot's four vertices. */
  lemma {:induction false} PatternQuad(n: nat, q: nat)
    requires q < n
    ensures Pattern(n)[6 * q .. 6 * q + 6] == QuadIndices(q)
  {
    PatternPrefix(q + 1, n);
    assert Pattern(q + 1)[6 * q ..] == QuadIndices(q);
  }

  /** Every index of the pattern for n slots addresses one of the 4n vertices of those slots. */
  lemma {:induction false} PatternBounded(n: nat)
    ensures forall k :: 0 <= k < |Pattern(n)| ==> Pattern(n)[k] < 4 * n
  {
    if n > 0 {
      PatternBounded(n - 1);
      forall k | 0 <= k < |Pattern(n)|
        ensures Pattern(n)[k] < 4 * n
      {
        if k >= 6 * (n - 1) {
          assert Pattern(n)[k] == QuadIndices(n - 1)[k - 6 * (n - 1)];
        } else {
          assert Pattern(n)[k] == Pattern(n - 1)[k];
        }
      }
    }
  }

  /** Every vertex of the 4n slots is addressed by some index of the pattern. */
  lemma PatternCovers(n: nat, v: nat)
    requires v < 4 * n
    ensures exists k :: 0 <= k < |Pattern(n)| && Pattern(n)[k] == v
  {
    var q, c := v / 4, v % 4;
    assert v == 4 * q + c;
    PatternQuad(n, q);
    var at := if c == 3 then 4 else c;
    assert Pattern(n)[6 * q + at] == QuadIndices(q)[at];
  }

  /** Drawing the first 6k indices touches only the first 4k vertices: a draw of k quads
      reads only vertices that k submits have written. */
  lemma DrawnIndicesBounded(n: nat, k: nat)
    requires k <= n
    ensures forall j :: 0 <= j < 6 * k ==> Pattern(n)[j] < 4 * k
  {
    PatternPrefix(k, n);
    PatternBounded(k);
  }

  /** With the default capacity the buffer has 360000 entries, every entry fits an unsigned
      32-bit index, and the loop counter and the offset stay within a signed 32-bit int. */
  lemma DefaultPatternFits()
    ensures |Pattern(MAX_SPRITES)| == INDICES_SIZE == 360000
    ensures INDICES_SIZE + 6 < 0x8000_0000 && 4 * MAX_SPRITES < 0x8000_0000
    ensures forall k :: 0 <= k < INDICES_SIZE ==> Pattern(MAX_SPRITES)[k] < 0x1_0000_0000
  {
    PatternBounded(MAX_SPRITES);
  }

  /** The constructor's loop: i steps through the index buffer six entries at a time
      while offset steps through the vertices four at a time. */
  method GenerateIndices(maxSprites: nat) returns (indices: array<nat>)
    ensures indices.Length == 6 * maxSprites
    ensures indices[..] == Pattern(maxSprites)
  {
    indices := new nat[6 * maxSprites];
    var offset := 0;
    var i := 0;
    ghost var q := 0;
    while i < indices.Length
      invariant q <= maxSprites
      invariant i == 6 * q && offset == 4 * q
      invariant indices[..i] == Pattern(q)
    {
      indices[i] := offset + 0;
      indices[i + 1] := offset + 1;
      indices[i + 2] := offset + 2;

      indices[i + 3] := offset + 2;
      indices[i + 4] := offset + 3;
      indices[i + 5] := offset + 0;

      assert indices[..i + 6] == indices[..i] + QuadIndices(q);
      offset := offset + 4;
      i := i + 6;
      q := q + 1;
    }
    assert indices[..] == indices[..i];
  }
}

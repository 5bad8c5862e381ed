/**
 * Mesh descriptors of the demo's three solids: a flat vertex array, a flat
 * per-vertex colour array built by repeating each face colour, a triangle
 * index list, and the counts the factories record beside them.
 *
 * Vertex coordinates and colour channels are kept as `real` values that are
 * never computed with: only their number and their position matter here.
 */
module Meshes {

  /** One RGBA colour tuple of a face-colour table. */
  datatype Rgba = Rgba(r: real, g: real, b: real, a: real)

  /** The only primitive the factories record (`gl.TRIANGLES`). */
  datatype Primitive = Triangles

  /** Number of floats per vertex position (`vertSize`) and per colour (`colorSize`). */
  const VertSize: nat := 3
  const ColorSize: nat := 4

  /**
   * The object literal a factory builds, minus the GPU buffer handles and the
   * animated fields: the arrays that were uploaded and the recorded counts.
   */
  datatype Mesh = Mesh(
    vertices: seq<real>,
    vertexColors: seq<real>,
    indices: seq<int>,
    vertSize: nat,
    nVerts: nat,
    colorSize: nat,
    nColors: nat,
    nIndices: nat,
    primtype: Primitive)

  /** The four channels of a colour, in the order `Array.concat` appends them. */
  function Components(c: Rgba): seq<real>
  {
    [c.r, c.g, c.b, c.a]
  }

  /** `[].concat(c0).concat(c1)...`: the channels of every colour, one after the other. */
  function Flatten(cs: seq<Rgba>): seq<real>
  {
    if cs == [] then [] else Flatten(cs[..|cs| - 1]) + Components(cs[|cs| - 1])
  }

  /** `k` copies of one value. */
  function Copies<T>(c: T, k: nat): seq<T>
  {
    seq(k, _ => c)
  }

  /** Each entry of `fc` repeated `k` times in a row, entry by entry. */
  function Repeat<T>(fc: seq<T>, k: nat): seq<T>
  {
    if fc == [] then [] else Repeat(fc[..|fc| - 1], k) + Copies(fc[|fc| - 1], k)
  }

  /** The pieces of a table written in groups, joined in order. */
  function Concat<T>(ss: seq<seq<T>>): seq<T>
  {
    if ss == [] then [] else Concat(ss[..|ss| - 1]) + ss[|ss| - 1]
  }

  /** Every entry of `s` is a valid index below `n`. */
  predicate AllBelow(s: seq<int>, n: int)
  {
    forall i :: 0 <= i < |s| ==> 0 <= s[i] < n
  }

  /** The number of vertex positions the vertex array actually holds. */
  function VertexCount(m: Mesh): nat
  {
    |m.vertices| / VertSize
  }

  /** The number of RGBA entries the colour array actually holds. */
  function ColorEntries(m: Mesh): nat
  {
    |m.vertexColors| / ColorSize
  }

  /** The colour the GPU reads for vertex `v` (four floats from offset 4·v). */
  function VertexColor(m: Mesh, v: nat): seq<real>
    requires ColorSize * v + ColorSize <= |m.vertexColors|
  {
    m.vertexColors[ColorSize * v .. ColorSize * v + ColorSize]
  }

  /** The index list is a triangle list and `nIndices` is its length. */
  predicate TriangleList(m: Mesh)
  {
    m.primtype == Triangles && |m.indices| % 3 == 0 && m.nIndices == |m.indices|
  }

  /**
   * Drawing `nIndices` indices reads only inside the uploaded arrays: each
   * index names a whole position triple and a whole colour quadruple.
   */
  predicate DrawSafe(m: Mesh)
  {
    && m.vertSize == VertSize && m.colorSize == ColorSize
    && m.nIndices <= |m.indices|
    && |m.vertices| % VertSize == 0
    && AllBelow(m.indices, VertexCount(m))
    && VertexCount(m) <= ColorEntries(m)
  }

  /** Every index also fits in the `Uint16Array` it is uploaded as. */
  predicate FitsUint16(m: Mesh)
  {
    AllBelow(m.indices, 0x1_0000)
  }

  /** The recorded vertex and colour counts equal what the arrays hold. */
  predicate CountsAgree(m: Mesh)
  {
    && |m.vertices| % VertSize == 0 && |m.vertexColors| % ColorSize == 0
    && m.nVerts == VertexCount(m)
    && m.nColors == ColorEntries(m)
  }

  /** The per-vertex colour loop of the factories (`for (const color of faceColors) for (j < k) concat`). */
  method ExpandColors(faceColors: seq<Rgba>, k: nat) returns (vertexColors: seq<real>)
    ensures vertexColors == Flatten(Repeat(faceColors, k))
  {
    vertexColors := [];
    for f := 0 to |faceColors|
      invariant vertexColors == Flatten(Repeat(faceColors[..f], k))
    {
      var color := faceColors[f];
      assert faceColors[..f + 1][..f] == faceColors[..f];
      assert Repeat(faceColors[..f], k) + Copies(color, 0) == Repeat(faceColors[..f], k);
      for j := 0 to k
        invariant vertexColors == Flatten(Repeat(faceColors[..f], k) + Copies(color, j))
      {
        FlattenSnoc(Repeat(faceColors[..f], k) + Copies(color, j), color);
        assert Repeat(faceColors[..f], k) + Copies(color, j) + [color]
            == Repeat(faceColors[..f], k) + Copies(color, j + 1);
        vertexColors := vertexColors + Components(color);
      }
      assert Repeat(faceColors[..f + 1], k) == Repeat(faceColors[..f], k) + Copies(color, k);
    }
    assert faceColors[..|faceColors|] == faceColors;
  }

  lemma FlattenSnoc(cs: seq<Rgba>, c: Rgba)
    ensures Flatten(cs + [c]) == Flatten(cs) + Components(c)
  {
    assert (cs + [c])[..|cs|] == cs;
  }

  lemma MulMono(a: int, b: int, k: int)
    requires a <= b && 0 <= k
    ensures a * k <= b * k
  {
    assert b * k - a * k == (b - a) * k;
  }

  lemma DivBetween(i: int, q: int, k: int)
    requires k > 0 && q * k <= i < q * k + k
    ensures i / k == q && i % k == i - q * k
  {
    var r := i / k;
    assert i == r * k + i % k;
    if r < q {
      MulMono(r + 1, q, k);
      assert false;
    } else if r > q {
      MulMono(q + 1, r, k);
      assert false;
    }
  }

  lemma DivLess(i: int, n: int, k: int)
    requires k > 0 && 0 <= i < n * k
    ensures 0 <= i / k < n
  {
    var r := i / k;
    assert i == r * k + i % k;
    if r >= n {
      MulMono(n, r, k);
      assert false;
    } else if r < 0 {
      MulMono(r, -1, k);
      assert false;
    }
  }

  /** Entry `i` of the repetition is `fc[i / k]`. */
  lemma {:induction false} RepeatIndex<T>(fc: seq<T>, k: nat, i: int)
    requires 0 <= i < |fc| * k
    ensures |Repeat(fc, k)| == |fc| * k
    ensures 0 <= i / k < |fc| && Repeat(fc, k)[i] == fc[i / k]
  {
    var n := |fc|;
    var init := fc[..n - 1];
    var base := (n - 1) * k;
    assert base + k == n * k;
    assert forall j :: 0 <= j < |init| ==> init[j] == fc[j];
    RepeatLength(init, k);
    assert Repeat(fc, k) == Repeat(init, k) + Copies(fc[n - 1], k);
    DivLess(i, n, k);
    if i < base {
      RepeatIndex(init, k, i);
    } else {
      DivBetween(i, n - 1, k);
    }
  }

  lemma {:induction false} RepeatLength<T>(fc: seq<T>, k: nat)
    ensures |Repeat(fc, k)| == |fc| * k
  {
    if fc != [] {
      RepeatLength(fc[..|fc| - 1], k);
      assert (|fc| - 1) * k + k == |fc| * k;
    }
  }

  /** Repeating `k` times gives `|fc|·k` entries, and entry `i` is `fc[i / k]`. */
  lemma RepeatAt<T>(fc: seq<T>, k: nat)
    ensures |Repeat(fc, k)| == |fc| * k
    ensures forall i :: 0 <= i < |fc| * k ==> 0 <= i / k < |fc| && Repeat(fc, k)[i] == fc[i / k]
  {
    RepeatLength(fc, k);
    forall i | 0 <= i < |fc| * k
      ensures 0 <= i / k < |fc| && Repeat(fc, k)[i] == fc[i / k]
    {
      RepeatIndex(fc, k, i);
    }
  }

  /** The flattened array holds four floats per colour; floats 4·v .. 4·v+3 are colour `v`. */
  lemma {:induction false} FlattenAt(cs: seq<Rgba>)
    ensures |Flatten(cs)| == ColorSize * |cs|
    ensures forall v :: 0 <= v < |cs| ==>
      Flatten(cs)[ColorSize * v .. ColorSize * v + ColorSize] == Components(cs[v])
  {
    if cs != [] {
      var n := |cs|;
      FlattenAt(cs[..n - 1]);
      forall v | 0 <= v < n
        ensures Flatten(cs)[ColorSize * v .. ColorSize * v + ColorSize] == Components(cs[v])
      {
        if v < n - 1 {
          assert Flatten(cs)[ColorSize * v .. ColorSize * v + ColorSize]
              == Flatten(cs[..n - 1])[ColorSize * v .. ColorSize * v + ColorSize];
        }
      }
    }
  }

  /**
   * The colour expansion with repeat count `k` gives `|fc|·k` RGBA entries,
   * and the GPU colour of vertex `v` is face colour `fc[v / k]`.
   */
  lemma ExpandedColorOf(fc: seq<Rgba>, k: nat, v: nat)
    requires v < |fc| * k
    ensures |Flatten(Repeat(fc, k))| == ColorSize * (|fc| * k)
    ensures Flatten(Repeat(fc, k))[ColorSize * v .. ColorSize * v + ColorSize] == Components(fc[v / k])
  {
    RepeatAt(fc, k);
    FlattenAt(Repeat(fc, k));
  }

  /** A table written as groups of equal width `w` has `w` entries per group. */
  lemma {:induction false} ConcatLength<T>(ss: seq<seq<T>>, w: nat)
    requires forall g :: 0 <= g < |ss| ==> |ss[g]| == w
    ensures |Concat(ss)| == w * |ss|
  {
    if ss != [] {
      var n := |ss|;
      var init := ss[..n - 1];
      assert forall g :: 0 <= g < |init| ==> init[g] == ss[g];
      ConcatLength(init, w);
      assert Concat(ss) == Concat(init) + ss[n - 1];
      assert w * (n - 1) + w == w * n;
    }
  }

  /** Entry `i` of a table written as groups of width `w` is entry `i % w` of group `i / w`. */
  lemma {:induction false} ConcatIndex<T>(ss: seq<seq<T>>, w: nat, i: int)
    requires w > 0
    requires forall g :: 0 <= g < |ss| ==> |ss[g]| == w
    requires 0 <= i < |ss| * w
    ensures |Concat(ss)| == |ss| * w
    ensures 0 <= i / w < |ss| && Concat(ss)[i] == ss[i / w][i % w]
  {
    var n := |ss|;
    var init := ss[..n - 1];
    var base := (n - 1) * w;
    assert base + w == n * w;
    assert forall g :: 0 <= g < |init| ==> init[g] == ss[g];
    ConcatLength(init, w);
    assert Concat(ss) == Concat(init) + ss[n - 1];
    DivLess(i, n, w);
    if i < base {
      ConcatIndex(init, w, i);
    } else {
      DivBetween(i, n - 1, w);
    }
  }

  /** A table is in range when each of its groups is. */
  lemma {:induction false} ConcatBelow(ss: seq<seq<int>>, n: int)
    requires forall g :: 0 <= g < |ss| ==> AllBelow(ss[g], n)
    ensures AllBelow(Concat(ss), n)
  {
    if ss != [] {
      ConcatBelow(ss[..|ss| - 1], n);
    }
  }
}

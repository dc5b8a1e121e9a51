/** The file layout, the save-then-load round trip, and where a load stops. */
module PersistenceFacts {
  import opened Errors
  import opened LayerMath
  import opened NetworkMath
  import opened Persistence

  lemma {:induction false} FlattenLength(w: seq<seq<real>>, c: nat)
    requires Rows(w, c)
    ensures |Flatten(w)| == |w| * c
    decreases |w|
  {
    if w != [] {
      FlattenLength(w[1..], c);
    }
  }

  /** Weight `w[i][j]` sits at offset `i * c + j` of the flattened matrix. */
  lemma {:induction false} FlattenEntry(w: seq<seq<real>>, c: nat, i: nat, j: nat)
    requires Rows(w, c) && i < |w| && j < c
    ensures i * c + j < |Flatten(w)| && Flatten(w)[i * c + j] == w[i][j]
    decreases i
  {
    FlattenLength(w, c);
    if i > 0 {
      FlattenEntry(w[1..], c, i - 1, j);
      assert i * c + j == c + ((i - 1) * c + j);
    }
  }

  /** The block of a layer with `r` rows of `c` weights is `2 + r*c + r` tokens long
      and starts with `r` and `c`. */
  lemma EncodeLayerHeader(L: LayerState)
    requires Shaped(L, InSize(L), OutSize(L))
    ensures |EncodeLayer(L)| == 2 + OutSize(L) * InSize(L) + OutSize(L)
    ensures EncodeLayer(L)[0] == Nat(OutSize(L)) && EncodeLayer(L)[1] == Nat(InSize(L))
  {
    FlattenLength(L.weights, InSize(L));
  }

  /** Weight `[i][j]` of a layer with `c` inputs is token `2 + i*c + j` of its block. */
  lemma EncodeLayerWeight(L: LayerState, i: nat, j: nat)
    requires Shaped(L, InSize(L), OutSize(L)) && i < OutSize(L) && j < InSize(L)
    ensures 2 + i * InSize(L) + j < |EncodeLayer(L)|
    ensures EncodeLayer(L)[2 + i * InSize(L) + j] == Num(L.weights[i][j])
  {
    FlattenLength(L.weights, InSize(L));
    FlattenEntry(L.weights, InSize(L), i, j);
  }

  /** Bias `[i]` of a layer with `r` rows of `c` weights is token `2 + r*c + i`. */
  lemma EncodeLayerBias(L: LayerState, i: nat)
    requires Shaped(L, InSize(L), OutSize(L)) && i < OutSize(L)
    ensures 2 + OutSize(L) * InSize(L) + i < |EncodeLayer(L)|
    ensures EncodeLayer(L)[2 + OutSize(L) * InSize(L) + i] == Num(L.biases[i])
  {
    FlattenLength(L.weights, InSize(L));
  }

  /** The blocks of two runs of layers, one after the other. */
  lemma {:induction false} EncodeLayersAppend(a: seq<LayerState>, b: seq<LayerState>)
    ensures EncodeLayers(a + b) == EncodeLayers(a) + EncodeLayers(b)
    decreases |a|
  {
    if a == [] {
      assert a + b == b;
    } else {
      assert (a + b)[1..] == a[1..] + b;
      EncodeLayersAppend(a[1..], b);
    }
  }

  /** The file starts with the layer count, and the block of layer `k` follows the
      blocks of layers `0 .. k-1` and precedes those of the layers after it. */
  lemma EncodeBlockAt(ls: seq<LayerState>, k: nat)
    requires k < |ls|
    ensures Encode(ls) == [Nat(|ls|)] + EncodeLayers(ls[..k]) + EncodeLayer(ls[k]) + EncodeLayers(ls[k + 1..])
  {
    assert ls == ls[..k] + ([ls[k]] + ls[k + 1..]);
    EncodeLayersAppend(ls[..k], [ls[k]] + ls[k + 1..]);
    assert ([ls[k]] + ls[k + 1..])[1..] == ls[k + 1..];
  }

  lemma ScalarsAppend(a: seq<real>, b: seq<real>)
    ensures Scalars(a + b) == Scalars(a) + Scalars(b)
  {
  }

  /** Appending a row to the matrix appends its entries to the flattened form. */
  lemma {:induction false} FlattenSnoc(w: seq<seq<real>>, row: seq<real>)
    ensures Flatten(w + [row]) == Flatten(w) + row
    decreases |w|
  {
    if w == [] {
      assert [] + [row] == [row];
      assert row + [] == row;
    } else {
      assert (w + [row])[1..] == w[1..] + [row];
      FlattenSnoc(w[1..], row);
    }
  }

  /** Appending a layer appends its block. */
  lemma {:induction false} EncodeLayersSnoc(ls: seq<LayerState>, L: LayerState)
    ensures EncodeLayers(ls + [L]) == EncodeLayers(ls) + EncodeLayer(L)
    decreases |ls|
  {
    if ls == [] {
      assert [] + [L] == [L];
      assert [L][1..] == [];
    } else {
      assert (ls + [L])[1..] == ls[1..] + [L];
      EncodeLayersSnoc(ls[1..], L);
    }
  }

  lemma ReadScalarsOfScalars(s: seq<real>, rest: seq<Token>)
    ensures ReadScalars(Scalars(s) + rest, |s|) == Success((s, rest))
  {
    var ts := Scalars(s) + rest;
    assert ts[|s|..] == rest;
    assert seq(|s|, i requires 0 <= i < |s| => ScalarOf(ts[i])) == s;
  }

  lemma {:induction false} ReadRowsOfFlatten(w: seq<seq<real>>, c: nat, rest: seq<Token>)
    requires Rows(w, c)
    ensures ReadRows(Scalars(Flatten(w)) + rest, |w|, c) == Success((w, rest))
    decreases |w|
  {
    if w != [] {
      var tail := Scalars(Flatten(w[1..])) + rest;
      ScalarsAppend(w[0], Flatten(w[1..]));
      assert Scalars(Flatten(w)) + rest == Scalars(w[0]) + tail;
      ReadScalarsOfScalars(w[0], tail);
      assert ReadScalars(Scalars(Flatten(w)) + rest, c) == Success((w[0], tail));
      ReadRowsOfFlatten(w[1..], c, rest);
      assert ReadRows(tail, |w| - 1, c) == Success((w[1..], rest));
      assert [w[0]] + w[1..] == w;
    } else {
      assert Scalars(Flatten(w)) + rest == rest;
    }
  }

  /** Reading the block of `P` into a layer `Q` of the same dimensions gives `Q`
      the parameters of `P`. */
  lemma ReadLayerOfEncode(Q: LayerState, P: LayerState, rest: seq<Token>)
    requires Shaped(P, InSize(P), OutSize(P))
    requires OutSize(Q) == OutSize(P) && InSize(Q) == InSize(P)
    ensures ReadLayer(Q, EncodeLayer(P) + rest) == Success((Q.(weights := P.weights, biases := P.biases), rest))
  {
    var ts := EncodeLayer(P) + rest;
    var after := Scalars(P.biases) + rest;
    assert ts[2..] == Scalars(Flatten(P.weights)) + after;
    ReadRowsOfFlatten(P.weights, InSize(P), after);
    ReadScalarsOfScalars(P.biases, rest);
  }

  /** The block of `P` is rejected by a layer `Q` of other dimensions. */
  lemma ReadLayerMismatch(Q: LayerState, P: LayerState, rest: seq<Token>)
    requires OutSize(Q) != OutSize(P) || InSize(Q) != InSize(P)
    ensures ReadLayer(Q, EncodeLayer(P) + rest) == Failure(ShapeMismatch)
  {
  }

  /** `qs` where the layers below `m` have taken the parameters of `ps`. */
  function Replaced(qs: seq<LayerState>, ps: seq<LayerState>, m: nat): (r: seq<LayerState>)
    requires |ps| == |qs|
    ensures |r| == |qs|
  {
    seq(|qs|, j requires 0 <= j < |qs| =>
      if j < m then qs[j].(weights := ps[j].weights, biases := ps[j].biases) else qs[j])
  }

  /** Loading the blocks of `ps` from layer `k` on: layers `k .. m-1` match and take
      their parameters, and the load stops at the first layer `m` that does not.  */
  lemma {:induction false} LoadLayersOfEncode(qs: seq<LayerState>, ps: seq<LayerState>, k: nat, m: nat, rest: seq<Token>)
    requires |ps| == |qs| && Chained(ps) && k <= m <= |qs|
    requires forall j :: k <= j < m ==> OutSize(qs[j]) == OutSize(ps[j]) && InSize(qs[j]) == InSize(ps[j])
    requires m < |qs| ==> OutSize(qs[m]) != OutSize(ps[m]) || InSize(qs[m]) != InSize(ps[m])
    ensures LoadLayers(Replaced(qs, ps, k), EncodeLayers(ps[k..]) + rest, k)
      == (Replaced(qs, ps, m), if m == |qs| then Pass else Fail(ShapeMismatch))
    decreases |qs| - k
  {
    var cur := Replaced(qs, ps, k);
    if k < |qs| {
      assert EncodeLayers(ps[k..]) + rest == EncodeLayer(ps[k]) + (EncodeLayers(ps[k + 1..]) + rest) by {
        assert ps[k..][1..] == ps[k + 1..];
      }
      assert cur[k] == qs[k];
      if k == m {
        ReadLayerMismatch(qs[k], ps[k], EncodeLayers(ps[k + 1..]) + rest);
      } else {
        ReadLayerOfEncode(qs[k], ps[k], EncodeLayers(ps[k + 1..]) + rest);
        var L := qs[k].(weights := ps[k].weights, biases := ps[k].biases);
        assert cur[k := L] == Replaced(qs, ps, k + 1);
        LoadLayersOfEncode(qs, ps, k + 1, m, rest);
      }
    } else {
      assert Replaced(qs, ps, k) == Replaced(qs, ps, m);
    }
  }

  /** Save then load: loading what `saveWeights` wrote for `ps` into a network with
      the same dimensions restores every weight and bias of `ps`, keeps the caches,
      and ignores whatever follows. */
  lemma SaveLoadRoundTrip(qs: seq<LayerState>, ps: seq<LayerState>, rest: seq<Token>)
    requires WellFormed(ps) && SameShapes(qs, ps)
    ensures Load(qs, Encode(ps) + rest) == (WithParameters(qs, ps), Pass)
  {
    assert (Encode(ps) + rest)[1..] == EncodeLayers(ps[0..]) + rest by {
      assert ps[0..] == ps;
    }
    assert Replaced(qs, ps, 0) == qs;
    LoadLayersOfEncode(qs, ps, 0, |qs|, rest);
    assert Replaced(qs, ps, |qs|) == WithParameters(qs, ps);
  }

  /** Loading is not all-or-nothing: when layer `m` is the first whose dimensions
      differ from the file's, the load fails there, after the layers below `m` have
      already been overwritten. */
  lemma LoadStopsAtFirstMismatch(qs: seq<LayerState>, ps: seq<LayerState>, m: nat)
    requires |ps| == |qs| && Chained(ps) && m < |qs|
    requires forall j :: 0 <= j < m ==> OutSize(qs[j]) == OutSize(ps[j]) && InSize(qs[j]) == InSize(ps[j])
    requires OutSize(qs[m]) != OutSize(ps[m]) || InSize(qs[m]) != InSize(ps[m])
    ensures Load(qs, Encode(ps)) == (Replaced(qs, ps, m), Fail(ShapeMismatch))
  {
    assert Encode(ps)[1..] == EncodeLayers(ps[0..]) + [] by {
      assert ps[0..] == ps;
    }
    assert Replaced(qs, ps, 0) == qs;
    LoadLayersOfEncode(qs, ps, 0, m, []);
  }

  /** A file saved from a network with another number of layers is rejected before
      anything is written. */
  lemma LoadRejectsOtherCount(qs: seq<LayerState>, ps: seq<LayerState>, rest: seq<Token>)
    requires |ps| != |qs|
    ensures Load(qs, Encode(ps) + rest) == (qs, Fail(ShapeMismatch))
  {
  }
}

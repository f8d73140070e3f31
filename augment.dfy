/** The geometric self-ensemble of `test_x8`: the input is flipped and
    transposed into eight variants, each network output is mapped back by the
    inverse chain, and the eight restored outputs are averaged. A tensor is one
    rectangular plane of pixels (rows of columns); the batch and channel axes,
    which every transform leaves alone, are not represented. */
module Augment {
  import opened Common

  /** A plane as rows of equal width `width`; `|rows|` is its height. Unlike
      the images of the border crop, which are any nested sequence as Python
      slicing allows, a plane keeps its width explicitly, because the
      transpose of a plane with no rows must still know how many rows it
      gets. */
  datatype Grid<P> = Grid(rows: seq<seq<P>>, width: nat)

  /** A numpy array is always rectangular. */
  type Plane<P> = g: Grid<P> | Rectangular(g.rows, g.width) witness Grid([], 0)

  function Height<P>(p: Plane<P>): nat
  {
    |p.rows|
  }

  function Reverse<T>(s: seq<T>): (r: seq<T>)
    ensures |r| == |s|
    ensures forall k :: 0 <= k < |s| ==> r[k] == s[|s| - 1 - k]
  {
    seq(|s|, k requires 0 <= k < |s| => s[|s| - 1 - k])
  }

  /** `v[:, :, :, ::-1]`: reverse the columns of every row. */
  function FlipV<P>(p: Plane<P>): (r: Plane<P>)
    ensures Height(r) == Height(p) && r.width == p.width
    ensures forall k, l :: 0 <= k < Height(p) && 0 <= l < p.width ==> r.rows[k][l] == p.rows[k][p.width - 1 - l]
  {
    Grid(seq(|p.rows|, k requires 0 <= k < |p.rows| => Reverse(p.rows[k])), p.width)
  }

  /** `v[:, :, ::-1, :]`: reverse the order of the rows. */
  function FlipH<P>(p: Plane<P>): (r: Plane<P>)
    ensures Height(r) == Height(p) && r.width == p.width
    ensures forall k, l :: 0 <= k < Height(p) && 0 <= l < p.width ==> r.rows[k][l] == p.rows[Height(p) - 1 - k][l]
  {
    Grid(Reverse(p.rows), p.width)
  }

  /** `v.transpose((0, 1, 3, 2))`: swap the two spatial axes. */
  function Transpose<P>(p: Plane<P>): (r: Plane<P>)
    ensures Height(r) == p.width && r.width == Height(p)
    ensures forall k, l :: 0 <= k < p.width && 0 <= l < Height(p) ==> r.rows[k][l] == p.rows[l][k]
  {
    Grid(seq(p.width, j requires 0 <= j < p.width => seq(|p.rows|, k requires 0 <= k < |p.rows| => p.rows[k][j])), |p.rows|)
  }

  /** Two planes of the same shape with the same pixels are equal. */
  lemma {:induction false} SamePixels<P>(p: Plane<P>, q: Plane<P>)
    requires Height(p) == Height(q) && p.width == q.width
    requires forall k, l :: 0 <= k < Height(p) && 0 <= l < p.width ==> p.rows[k][l] == q.rows[k][l]
    ensures p == q
  {
    forall k | 0 <= k < Height(p)
      ensures p.rows[k] == q.rows[k]
    {
      assert |p.rows[k]| == p.width == |q.rows[k]|;
    }
    assert p.rows == q.rows;
  }

  lemma {:induction false} FlipVInvolution<P>(p: Plane<P>)
    ensures FlipV(FlipV(p)) == p
  {
    SamePixels(FlipV(FlipV(p)), p);
  }

  lemma {:induction false} FlipHInvolution<P>(p: Plane<P>)
    ensures FlipH(FlipH(p)) == p
  {
    SamePixels(FlipH(FlipH(p)), p);
  }

  lemma {:induction false} TransposeInvolution<P>(p: Plane<P>)
    ensures Transpose(Transpose(p)) == p
  {
    SamePixels(Transpose(Transpose(p)), p);
  }

  /** `_transform(v, op)`: an op other than "v", "h" or "t" leaves `tfnp`
      unbound. */
  function Transform<P>(p: Plane<P>, op: string): (r: Result<Plane<P>>)
    ensures r.Ok? <==> op == "v" || op == "h" || op == "t"
    ensures r.Raise? ==> r.error == UnboundLocalError("tfnp")
    ensures op == "t" ==> r == Ok(Transpose(p))
    ensures op == "h" ==> r == Ok(FlipH(p))
    ensures op == "v" ==> r == Ok(FlipV(p))
  {
    if op == "v" then Ok(FlipV(p))
    else if op == "h" then Ok(FlipH(p))
    else if op == "t" then Ok(Transpose(p))
    else Raise(UnboundLocalError("tfnp"))
  }

  /** The transforms applied in turn to grow the list of inputs. */
  const Ops: seq<string> := ["v", "h", "t"]

  /** The input list after the first `n` rounds: each round appends the
      transformed copy of every entry already present. */
  function Stage<P>(x: Plane<P>, n: nat): (r: seq<Plane<P>>)
    requires n <= |Ops|
  {
    if n == 0 then [x]
    else
      var prev := Stage(x, n - 1);
      prev + seq(|prev|, k requires 0 <= k < |prev| => Transform(prev[k], Ops[n - 1]).value)
  }

  /** Entry `i` of the ensemble input: flip the columns when bit 0 of `i` is
      set, then the rows when bit 1 is set, then transpose when bit 2 is set. */
  function Augmented<P>(i: nat, x: Plane<P>): Plane<P>
  {
    var a := if i % 2 == 1 then FlipV(x) else x;
    var b := if (i / 2) % 2 == 1 then FlipH(a) else a;
    if (i / 4) % 2 == 1 then Transpose(b) else b
  }

  /** The inverse chain applied to output `i`: transpose when `i > 3`, flip
      the rows when `i % 4 > 1`, flip the columns when `(i % 4) % 2 == 1`. */
  function Deaugmented<P>(i: nat, y: Plane<P>): Plane<P>
  {
    var a := if i > 3 then Transpose(y) else y;
    var b := if i % 4 > 1 then FlipH(a) else a;
    if (i % 4) % 2 == 1 then FlipV(b) else b
  }

  /** One round doubles the list, keeping the old entries in front. */
  lemma StageStep<P>(x: Plane<P>, n: nat)
    requires n < |Ops|
    ensures var prev, next := Stage(x, n), Stage(x, n + 1);
      && |next| == 2 * |prev|
      && next[..|prev|] == prev
      && forall k :: 0 <= k < |prev| ==> next[|prev| + k] == Transform(prev[k], Ops[n]).value
  {
  }

  /** The eight variants spelled out. */
  lemma AugmentedTable<P>(x: Plane<P>)
    ensures seq(8, i requires 0 <= i < 8 => Augmented(i, x))
      == [x, FlipV(x), FlipH(x), FlipH(FlipV(x)),
          Transpose(x), Transpose(FlipV(x)), Transpose(FlipH(x)), Transpose(FlipH(FlipV(x)))]
  {
  }

  /** The list after each round spelled out. */
  lemma {:induction false} StageOne<P>(x: Plane<P>)
    ensures Stage(x, 1) == [x, FlipV(x)]
  {
    assert Stage(x, 0) == [x];
    StageStep(x, 0);
  }

  lemma {:induction false} StageTwo<P>(x: Plane<P>)
    ensures Stage(x, 2) == [x, FlipV(x), FlipH(x), FlipH(FlipV(x))]
  {
    StageOne(x);
    StageStep(x, 1);
  }

  lemma {:induction false} StageTable<P>(x: Plane<P>)
    ensures Stage(x, 3)
      == [x, FlipV(x), FlipH(x), FlipH(FlipV(x)),
          Transpose(x), Transpose(FlipV(x)), Transpose(FlipH(x)), Transpose(FlipH(FlipV(x)))]
  {
    StageTwo(x);
    StageStep(x, 2);
  }

  /** After the three rounds the list holds the eight variants, entry `i`
      being the one the bits of `i` select. */
  lemma {:induction false} StageBits<P>(x: Plane<P>)
    ensures |Stage(x, 3)| == 8
    ensures forall i :: 0 <= i < 8 ==> Stage(x, 3)[i] == Augmented(i, x)
  {
    StageTable(x);
    AugmentedTable(x);
    assert Stage(x, 3) == seq(8, i requires 0 <= i < 8 => Augmented(i, x));
  }

  /** The inverse chain undoes each augmentation. */
  lemma {:induction false} RoundTrip<P>(i: nat, x: Plane<P>)
    requires i < 8
    ensures Deaugmented(i, Augmented(i, x)) == x
  {
    var a := if i % 2 == 1 then FlipV(x) else x;
    var b := if (i / 2) % 2 == 1 then FlipH(a) else a;
    assert i > 3 <==> (i / 4) % 2 == 1;
    assert i % 4 > 1 <==> (i / 2) % 2 == 1;
    assert (i % 4) % 2 == 1 <==> i % 2 == 1;
    if (i / 4) % 2 == 1 {
      TransposeInvolution(b);
    }
    if (i / 2) % 2 == 1 {
      FlipHInvolution(a);
    }
    if i % 2 == 1 {
      FlipVInvolution(x);
    }
  }

  /** And each augmentation undoes the inverse chain. */
  lemma {:induction false} RoundTripBack<P>(i: nat, y: Plane<P>)
    requires i < 8
    ensures Augmented(i, Deaugmented(i, y)) == y
  {
    var a := if i > 3 then Transpose(y) else y;
    var b := if i % 4 > 1 then FlipH(a) else a;
    assert i > 3 <==> (i / 4) % 2 == 1;
    assert i % 4 > 1 <==> (i / 2) % 2 == 1;
    assert (i % 4) % 2 == 1 <==> i % 2 == 1;
    if (i % 4) % 2 == 1 {
      FlipVInvolution(b);
    }
    if i % 4 > 1 {
      FlipHInvolution(a);
    }
    if i > 3 {
      TransposeInvolution(y);
    }
  }

  /** `f` commutes with the three transforms on every plane. */
  ghost predicate Equivariant<P(!new)>(f: Plane<P> -> Plane<P>)
  {
    forall y: Plane<P> ::
      && f(FlipV(y)) == FlipV(f(y))
      && f(FlipH(y)) == FlipH(f(y))
      && f(Transpose(y)) == Transpose(f(y))
  }

  /** For a network that commutes with flips and transposition, every
      restored output is the network's output on the plain input, so the
      ensemble averages eight equal planes. */
  lemma {:induction false} EquivariantRestores<P(!new)>(f: Plane<P> -> Plane<P>, i: nat, x: Plane<P>)
    requires Equivariant(f) && i < 8
    ensures Deaugmented(i, f(Augmented(i, x))) == f(x)
  {
    var a := if i % 2 == 1 then FlipV(x) else x;
    var b := if (i / 2) % 2 == 1 then FlipH(a) else a;
    var fa := if i % 2 == 1 then FlipV(f(x)) else f(x);
    var fb := if (i / 2) % 2 == 1 then FlipH(fa) else fa;
    assert f(a) == fa;
    assert f(b) == fb;
    assert f(Augmented(i, x)) == Augmented(i, f(x));
    RoundTrip(i, f(x));
  }

  /** The eight outputs of `f` on the variants of `x`, each mapped back by
      its inverse chain. */
  function Ensemble<P>(f: Plane<P> -> Plane<P>, x: Plane<P>): (r: seq<Plane<P>>)
    ensures |r| == 8
  {
    seq<Plane<P>>(8, i requires 0 <= i < 8 => Deaugmented(i, f(Augmented(i, x))))
  }

  /** For an equivariant network the ensemble is eight copies of the plain
      output. */
  lemma {:induction false} EquivariantEnsemble<P(!new)>(f: Plane<P> -> Plane<P>, x: Plane<P>)
    requires Equivariant(f)
    ensures Ensemble(f, x) == seq(8, i => f(x))
  {
    forall i | 0 <= i < 8
      ensures Ensemble(f, x)[i] == f(x)
    {
      EquivariantRestores(f, i, x);
    }
  }

  /** `lr_list = [x]` extended once per op: the eight ensemble inputs. */
  method Augmentations<P>(x: Plane<P>) returns (inputs: seq<Plane<P>>)
    ensures |inputs| == 8
    ensures forall i :: 0 <= i < 8 ==> inputs[i] == Augmented(i, x)
  {
    inputs := [x];
    var n := 0;
    while n < |Ops|
      invariant n <= |Ops|
      invariant inputs == Stage(x, n)
    {
      var tf := Ops[n];
      var added: seq<Plane<P>> := [];
      var j := 0;
      while j < |inputs|
        invariant j <= |inputs|
        invariant |added| == j
        invariant forall k :: 0 <= k < j ==> added[k] == Transform(inputs[k], tf).value
      {
        var t := Transform(inputs[j], tf);
        added := added + [t.value];
        j := j + 1;
      }
      assert added == seq(|inputs|, k requires 0 <= k < |inputs| => Transform(inputs[k], Ops[n]).value);
      inputs := inputs + added;
      n := n + 1;
    }
    StageBits(x);
  }

  /** The restoring loop of `test_x8`, rewriting each output in place. */
  method Restore<P>(outputs: array<Plane<P>>)
    modifies outputs
    ensures forall i :: 0 <= i < outputs.Length ==> outputs[i] == Deaugmented(i, old(outputs[i]))
  {
    var i := 0;
    while i < outputs.Length
      invariant i <= outputs.Length
      invariant forall j :: 0 <= j < i ==> outputs[j] == Deaugmented(j, old(outputs[j]))
      invariant forall j :: i <= j < outputs.Length ==> outputs[j] == old(outputs[j])
    {
      ghost var y := outputs[i];
      if i > 3 {
        outputs[i] := Transform(outputs[i], "t").value;
      }
      if i % 4 > 1 {
        outputs[i] := Transform(outputs[i], "h").value;
      }
      if (i % 4) % 2 == 1 {
        outputs[i] := Transform(outputs[i], "v").value;
      }
      assert outputs[i] == Deaugmented(i, y);
      i := i + 1;
    }
  }
}

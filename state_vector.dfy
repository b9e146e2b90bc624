/** The packed state vector: N positions followed by N velocities, each
    flattened row-major, in one buffer of 6N reals (`unisci` / `separa`). */
module StateVector {
  import opened Wrappers
  import opened Vectors

  /** Positions and velocities of all bodies at one instant. */
  datatype Phase = Phase(pos: seq<Vec3>, vel: seq<Vec3>)

  /** Row-major flattening of an (N, 3) array (`reshape(-1)`): entry 3i + c
      is component c of row i. */
  function Flatten(xs: seq<Vec3>): (s: seq<real>)
    ensures |s| == 3 * |xs|
  {
    seq(3 * |xs|, p requires 0 <= p < 3 * |xs| => At(xs[p / 3], p % 3))
  }

  /** n consecutive rows of three reals read from y, starting at `base`
      (`reshape(n, 3)` of a slice of y). */
  function Rows(y: seq<real>, base: nat, n: nat): (xs: seq<Vec3>)
    requires base + 3 * n <= |y|
    ensures |xs| == n
  {
    seq(n, i requires 0 <= i < n => Vec3(y[base + 3 * i], y[base + 3 * i + 1], y[base + 3 * i + 2]))
  }

  lemma FlattenAt(xs: seq<Vec3>, i: nat, c: nat)
    requires i < |xs| && c < 3
    ensures 3 * i + c < |Flatten(xs)| && Flatten(xs)[3 * i + c] == At(xs[i], c)
  {
    var p := 3 * i + c;
    assert p / 3 == i && p % 3 == c;
  }

  /** Flattening rows read from a buffer gives back that stretch of the buffer. */
  lemma FlattenRows(y: seq<real>, base: nat, n: nat, p: nat)
    requires base + 3 * n <= |y| && p < 3 * n
    ensures Flatten(Rows(y, base, n))[p] == y[base + p]
  {
    assert 3 * (p / 3) + p % 3 == p;
  }

  /** `unisci(r, v)`: flattened positions, then flattened velocities. */
  function Pack(pos: seq<Vec3>, vel: seq<Vec3>): (y: seq<real>)
    ensures |y| == 3 * |pos| + 3 * |vel|
  {
    Flatten(pos) + Flatten(vel)
  }

  /** `separa(y, n)`: the first 3n entries as n positions, the rest as n
      velocities; numpy's reshape fails unless the buffer holds exactly 6n reals. */
  function Unpack(y: seq<real>, n: nat): (r: Result<Phase>)
    ensures r.Ok? <==> |y| == 6 * n
    ensures r.Ok? ==> |r.value.pos| == n && |r.value.vel| == n
    ensures r.Err? ==> r.error == ShapeMismatch
  {
    if |y| != 6 * n then Err(ShapeMismatch)
    else Ok(Phase(Rows(y, 0, n), Rows(y, 3 * n, n)))
  }

  /** Layout of the packed vector: body i's position component c sits at
      3i + c, its velocity component c at 3N + 3i + c. */
  lemma PackLayout(pos: seq<Vec3>, vel: seq<Vec3>, i: nat, c: nat)
    requires c < 3
    ensures i < |pos| ==> Pack(pos, vel)[3 * i + c] == At(pos[i], c)
    ensures i < |vel| ==> Pack(pos, vel)[3 * |pos| + 3 * i + c] == At(vel[i], c)
  {
    if i < |pos| {
      FlattenAt(pos, i, c);
    }
    if i < |vel| {
      FlattenAt(vel, i, c);
    }
  }

  /** Round trip: unpacking a packed state gives back exactly the positions and velocities. */
  lemma UnpackPack(pos: seq<Vec3>, vel: seq<Vec3>)
    requires |pos| == |vel|
    ensures Unpack(Pack(pos, vel), |pos|) == Ok(Phase(pos, vel))
  {
    var y, n := Pack(pos, vel), |pos|;
    forall i | 0 <= i < n
      ensures Rows(y, 0, n)[i] == pos[i] && Rows(y, 3 * n, n)[i] == vel[i]
    {
      RowsOfPack(pos, vel, i);
    }
    assert Rows(y, 0, n) == pos;
    assert Rows(y, 3 * n, n) == vel;
  }

  lemma RowsOfPack(pos: seq<Vec3>, vel: seq<Vec3>, i: nat)
    requires |pos| == |vel| && i < |pos|
    ensures Rows(Pack(pos, vel), 0, |pos|)[i] == pos[i]
    ensures Rows(Pack(pos, vel), 3 * |pos|, |pos|)[i] == vel[i]
  {
    PackLayout(pos, vel, i, 0);
    PackLayout(pos, vel, i, 1);
    PackLayout(pos, vel, i, 2);
  }

  /** Round trip the other way: repacking an unpacked buffer gives back the buffer. */
  lemma PackUnpack(y: seq<real>, n: nat)
    requires |y| == 6 * n
    ensures Pack(Unpack(y, n).value.pos, Unpack(y, n).value.vel) == y
  {
    var s := Unpack(y, n).value;
    var z := Pack(s.pos, s.vel);
    forall p | 0 <= p < |y|
      ensures z[p] == y[p]
    {
      if p < 3 * n {
        FlattenRows(y, 0, n, p);
      } else {
        FlattenRows(y, 3 * n, n, p - 3 * n);
      }
    }
  }

  // Element-wise arithmetic on flat buffers, as numpy does on 1-D arrays.

  function FlatAdd(a: seq<real>, b: seq<real>): (c: seq<real>)
    requires |a| == |b|
    ensures |c| == |a|
  {
    seq(|a|, i requires 0 <= i < |a| => a[i] + b[i])
  }

  function FlatScale(c: real, a: seq<real>): seq<real>
  {
    seq(|a|, i requires 0 <= i < |a| => c * a[i])
  }

  lemma FlatScaleConcat(c: real, a: seq<real>, b: seq<real>)
    ensures FlatScale(c, a + b) == FlatScale(c, a) + FlatScale(c, b)
  {
    var l, r := FlatScale(c, a + b), FlatScale(c, a) + FlatScale(c, b);
    forall i | 0 <= i < |l|
      ensures l[i] == r[i]
    {
      if i >= |a| {
        assert (a + b)[i] == b[i - |a|];
      }
    }
  }

  lemma FlatAddConcat(a1: seq<real>, b1: seq<real>, a2: seq<real>, b2: seq<real>)
    requires |a1| == |a2| && |b1| == |b2|
    ensures FlatAdd(a1 + b1, a2 + b2) == FlatAdd(a1, a2) + FlatAdd(b1, b2)
  {
    var l, r := FlatAdd(a1 + b1, a2 + b2), FlatAdd(a1, a2) + FlatAdd(b1, b2);
    forall i | 0 <= i < |l|
      ensures l[i] == r[i]
    {
      if i >= |a1| {
        assert (a1 + b1)[i] == b1[i - |a1|] && (a2 + b2)[i] == b2[i - |a1|];
      }
    }
  }

  /** Flattening turns element-wise vector addition into element-wise addition. */
  lemma FlattenAdd(xs: seq<Vec3>, ys: seq<Vec3>)
    requires |xs| == |ys|
    ensures Flatten(SeqAdd(xs, ys)) == FlatAdd(Flatten(xs), Flatten(ys))
  {
    var l, r := Flatten(SeqAdd(xs, ys)), FlatAdd(Flatten(xs), Flatten(ys));
    forall p | 0 <= p < |l|
      ensures l[p] == r[p]
    {
      AtAdd(xs[p / 3], ys[p / 3], p % 3);
    }
  }

  /** Flattening commutes with scaling. */
  lemma FlattenScale(c: real, xs: seq<Vec3>)
    ensures Flatten(SeqScale(c, xs)) == FlatScale(c, Flatten(xs))
  {
    var l, r := Flatten(SeqScale(c, xs)), FlatScale(c, Flatten(xs));
    forall p | 0 <= p < |l|
      ensures l[p] == r[p]
    {
      AtScale(c, xs[p / 3], p % 3);
    }
  }

  lemma AtAdd(a: Vec3, b: Vec3, k: nat)
    requires k < 3
    ensures At(Add(a, b), k) == At(a, k) + At(b, k)
  {
  }

  lemma AtScale(c: real, v: Vec3, k: nat)
    requires k < 3
    ensures At(Scale(c, v), k) == c * At(v, k)
  {
  }

  /** `y + h * s` on packed states is the same update applied to both halves. */
  lemma PackAxpy(p1: seq<Vec3>, v1: seq<Vec3>, h: real, p2: seq<Vec3>, v2: seq<Vec3>)
    requires |p1| == |v1| == |p2| == |v2|
    ensures FlatAdd(Pack(p1, v1), FlatScale(h, Pack(p2, v2)))
         == Pack(SeqAdd(p1, SeqScale(h, p2)), SeqAdd(v1, SeqScale(h, v2)))
  {
    FlattenScale(h, p2);
    FlattenScale(h, v2);
    FlattenAdd(p1, SeqScale(h, p2));
    FlattenAdd(v1, SeqScale(h, v2));
    FlatScaleConcat(h, Flatten(p2), Flatten(v2));
    FlatAddConcat(Flatten(p1), Flatten(v1), FlatScale(h, Flatten(p2)), FlatScale(h, Flatten(v2)));
  }

  /** Unpacking commutes with the update `a + c * b` of flat buffers. */
  lemma UnpackAxpy(a: seq<real>, c: real, b: seq<real>, n: nat)
    requires |a| == |b| == 6 * n
    ensures var x, y := Unpack(a, n).value, Unpack(b, n).value;
            Unpack(FlatAdd(a, FlatScale(c, b)), n)
              == Ok(Phase(SeqAdd(x.pos, SeqScale(c, y.pos)), SeqAdd(x.vel, SeqScale(c, y.vel))))
  {
    UnpackScale(c, b, n);
    UnpackAdd(a, FlatScale(c, b), n);
  }

  /** Unpacking commutes with scaling a flat buffer. */
  lemma UnpackScale(c: real, b: seq<real>, n: nat)
    requires |b| == 6 * n
    ensures var y := Unpack(b, n).value;
            Unpack(FlatScale(c, b), n) == Ok(Phase(SeqScale(c, y.pos), SeqScale(c, y.vel)))
  {
    var z := FlatScale(c, b);
    var y := Unpack(b, n).value;
    forall i | 0 <= i < n
      ensures Rows(z, 0, n)[i] == Scale(c, y.pos[i])
      ensures Rows(z, 3 * n, n)[i] == Scale(c, y.vel[i])
    {
    }
    assert Rows(z, 0, n) == SeqScale(c, y.pos);
    assert Rows(z, 3 * n, n) == SeqScale(c, y.vel);
  }

  /** Unpacking commutes with element-wise addition of flat buffers. */
  lemma UnpackAdd(a: seq<real>, b: seq<real>, n: nat)
    requires |a| == |b| == 6 * n
    ensures var x, y := Unpack(a, n).value, Unpack(b, n).value;
            Unpack(FlatAdd(a, b), n) == Ok(Phase(SeqAdd(x.pos, y.pos), SeqAdd(x.vel, y.vel)))
  {
    var z := FlatAdd(a, b);
    var x, y := Unpack(a, n).value, Unpack(b, n).value;
    forall i | 0 <= i < n
      ensures Rows(z, 0, n)[i] == Add(x.pos[i], y.pos[i])
      ensures Rows(z, 3 * n, n)[i] == Add(x.vel[i], y.vel[i])
    {
    }
    assert Rows(z, 0, n) == SeqAdd(x.pos, y.pos);
    assert Rows(z, 3 * n, n) == SeqAdd(x.vel, y.vel);
  }
}

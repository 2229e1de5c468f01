/** Nested sequences as rectangular tensors: shape predicates, concatenation
    along the time axis, and the axis move used by the band builder. */
module Tensors {

  predicate Shape2<A>(x: seq<seq<A>>, n0: nat, n1: nat) {
    && |x| == n0
    && (forall i | 0 <= i < n0 :: |x[i]| == n1)
  }

  predicate Shape3<A>(x: seq<seq<seq<A>>>, n0: nat, n1: nat, n2: nat) {
    && Shape2(x, n0, n1)
    && (forall i, j | 0 <= i < n0 && 0 <= j < n1 :: |x[i][j]| == n2)
  }

  predicate Shape4<A>(x: seq<seq<seq<seq<A>>>>, n0: nat, n1: nat, n2: nat, n3: nat) {
    && Shape3(x, n0, n1, n2)
    && (forall i, j, k | 0 <= i < n0 && 0 <= j < n1 && 0 <= k < n2 :: |x[i][j][k]| == n3)
  }

  predicate Shape5<A>(x: seq<seq<seq<seq<seq<A>>>>>, n0: nat, n1: nat, n2: nat, n3: nat, n4: nat) {
    && Shape4(x, n0, n1, n2, n3)
    && (forall i, j, k, l | 0 <= i < n0 && 0 <= j < n1 && 0 <= k < n2 && 0 <= l < n3 :: |x[i][j][k][l]| == n4)
  }

  /** Elementwise application of `f`, as numpy applies a ufunc. */
  function MapSeq<A, B>(f: A -> B, s: seq<A>): (r: seq<B>)
    ensures |r| == |s|
    ensures forall k | 0 <= k < |s| :: r[k] == f(s[k])
  {
    seq(|s|, k requires 0 <= k < |s| => f(s[k]))
  }

  /** The pieces of `ss` joined first to last, as np.concatenate joins a list
      of arrays along one axis. */
  function Flatten<A>(ss: seq<seq<A>>): seq<A>
  {
    if |ss| == 0 then [] else ss[0] + Flatten(ss[1..])
  }

  /** Joining `m` pieces of length `n` gives `m * n` items. */
  lemma {:induction false} FlattenLength<A>(ss: seq<seq<A>>, n: nat)
    requires forall k | 0 <= k < |ss| :: |ss[k]| == n
    ensures |Flatten(ss)| == |ss| * n
  {
    if |ss| > 0 {
      FlattenLength(ss[1..], n);
      assert |ss| * n == n + (|ss| - 1) * n;
    }
  }

  /** Item `t` of piece `k` lands at position `k * n + t` of the join. */
  lemma {:induction false} FlattenIndex<A>(ss: seq<seq<A>>, n: nat, k: nat, t: nat)
    requires forall p | 0 <= p < |ss| :: |ss[p]| == n
    requires k < |ss| && t < n
    ensures k * n + t < |Flatten(ss)|
    ensures Flatten(ss)[k * n + t] == ss[k][t]
  {
    FlattenLength(ss, n);
    if k > 0 {
      var rest := ss[1..];
      FlattenIndex(rest, n, k - 1, t);
      FlattenLength(rest, n);
      assert k * n + t == n + ((k - 1) * n + t);
      assert rest[k - 1] == ss[k];
    }
  }

  /** Both laws for every piece and position at once. */
  lemma FlattenUniform<A>(ss: seq<seq<A>>, n: nat)
    requires forall p | 0 <= p < |ss| :: |ss[p]| == n
    ensures |Flatten(ss)| == |ss| * n
    ensures forall k, t | 0 <= k < |ss| && 0 <= t < n ::
              k * n + t < |Flatten(ss)| && Flatten(ss)[k * n + t] == ss[k][t]
  {
    FlattenLength(ss, n);
    forall k, t | 0 <= k < |ss| && 0 <= t < n
      ensures k * n + t < |Flatten(ss)| && Flatten(ss)[k * n + t] == ss[k][t]
    {
      FlattenIndex(ss, n, k, t);
    }
  }

  /** Applying `f` to every piece and then joining equals joining and then
      applying `f`: an elementwise transform commutes with concatenation. */
  lemma {:induction false} FlattenMap<A, B>(f: A -> B, ss: seq<seq<A>>)
    ensures Flatten(seq(|ss|, k requires 0 <= k < |ss| => MapSeq(f, ss[k]))) == MapSeq(f, Flatten(ss))
  {
    var mapped := seq(|ss|, k requires 0 <= k < |ss| => MapSeq(f, ss[k]));
    if |ss| > 0 {
      var rest := ss[1..];
      FlattenMap(f, rest);
      assert mapped[1..] == seq(|rest|, k requires 0 <= k < |rest| => MapSeq(f, rest[k]));
      assert Flatten(mapped) == MapSeq(f, ss[0]) + MapSeq(f, Flatten(rest));
      assert Flatten(ss) == ss[0] + Flatten(rest);
    }
  }

  /** np.moveaxis(x, [0], [3]) on a tensor whose first four axes are
      (|x|, n1, n2, n3); the entries moved are the series of the last axis. */
  function MoveAxis0To3<A>(x: seq<seq<seq<seq<A>>>>, n1: nat, n2: nat, n3: nat): (r: seq<seq<seq<seq<A>>>>)
    requires Shape4(x, |x|, n1, n2, n3)
    ensures Shape4(r, n1, n2, n3, |x|)
    ensures forall a, e, c, b | 0 <= a < n1 && 0 <= e < n2 && 0 <= c < n3 && 0 <= b < |x| ::
              r[a][e][c][b] == x[b][a][e][c]
  {
    seq(n1, a requires 0 <= a < n1 =>
      seq(n2, e requires 0 <= e < n2 =>
        seq(n3, c requires 0 <= c < n3 =>
          seq(|x|, b requires 0 <= b < |x| => x[b][a][e][c]))))
  }

  /** np.moveaxis(y, [3], [0]): the inverse axis move. */
  function MoveAxis3To0<A>(y: seq<seq<seq<seq<A>>>>, n1: nat, n2: nat, n3: nat, n0: nat): (r: seq<seq<seq<seq<A>>>>)
    requires Shape4(y, n1, n2, n3, n0)
    ensures Shape4(r, n0, n1, n2, n3)
    ensures forall b, a, e, c | 0 <= b < n0 && 0 <= a < n1 && 0 <= e < n2 && 0 <= c < n3 ::
              r[b][a][e][c] == y[a][e][c][b]
  {
    seq(n0, b requires 0 <= b < n0 =>
      seq(n1, a requires 0 <= a < n1 =>
        seq(n2, e requires 0 <= e < n2 =>
          seq(n3, c requires 0 <= c < n3 => y[a][e][c][b]))))
  }

  /** Moving the leading axis to position 3 and back restores the tensor:
      the move only permutes axes, dropping or duplicating nothing. */
  lemma MoveAxisRoundTrip<A>(x: seq<seq<seq<seq<A>>>>, n1: nat, n2: nat, n3: nat)
    requires Shape4(x, |x|, n1, n2, n3)
    ensures MoveAxis3To0(MoveAxis0To3(x, n1, n2, n3), n1, n2, n3, |x|) == x
  {
    var back := MoveAxis3To0(MoveAxis0To3(x, n1, n2, n3), n1, n2, n3, |x|);
    forall b | 0 <= b < |x|
      ensures back[b] == x[b]
    {
      forall a | 0 <= a < n1
        ensures back[b][a] == x[b][a]
      {
        forall e | 0 <= e < n2
          ensures back[b][a][e] == x[b][a][e]
        {
        }
      }
    }
  }
}

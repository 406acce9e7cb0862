/**
 * Vocabulary shared by every part of the batch monitor: the five process
 * parameters, one batch's readings, the golden signature, and a few small
 * facts about sequences that the filters of the other modules rely on.
 */
module Common {

  datatype Option<+T> = None | Some(value: T)

  /** The five monitored process parameters. */
  datatype Param = Temperature | Pressure | Ph | MixingSpeed | EnergyUsed

  /** All five parameters, in the order the deviation report lists them. */
  const AllParams: seq<Param> := [Temperature, Pressure, Ph, MixingSpeed, EnergyUsed]

  /** The four parameters an operator can adjust; energy use is only observed. */
  const Controllable: seq<Param> := [Temperature, Pressure, Ph, MixingSpeed]

  /** The readings of one batch run. */
  datatype Batch = Batch(temperature: real, pressure: real, ph: real, mixingSpeed: real, energyUsed: real)
  {
    function Get(p: Param): real {
      match p
      case Temperature => temperature
      case Pressure => pressure
      case Ph => ph
      case MixingSpeed => mixingSpeed
      case EnergyUsed => energyUsed
    }

    /** This batch with parameter `p` replaced by `v`. */
    function With(p: Param, v: real): (b: Batch)
      ensures b.Get(p) == v
      ensures forall q :: q != p ==> b.Get(q) == Get(q)
    {
      match p
      case Temperature => this.(temperature := v)
      case Pressure => this.(pressure := v)
      case Ph => this.(ph := v)
      case MixingSpeed => this.(mixingSpeed := v)
      case EnergyUsed => this.(energyUsed := v)
    }
  }

  /** Golden mean and standard deviation of one parameter. */
  datatype Stat = Stat(mean: real, std: real)

  /** The golden signature: reference statistics per parameter. */
  type Signature = map<Param, Stat>

  /** Every parameter of `ps` has an entry in `sig`. */
  predicate Covers(sig: Signature, ps: seq<Param>) {
    forall i :: 0 <= i < |ps| ==> ps[i] in sig
  }

  /** Every parameter has an entry in `sig`, and its deviation can be divided by. */
  predicate CompleteSignature(sig: Signature) {
    forall p :: p in sig && sig[p].std != 0.0
  }

  function Abs(x: real): (r: real)
    ensures r >= 0.0
    ensures r == x || r == -x
  {
    if x < 0.0 then -x else x
  }

  function Max(a: real, b: real): (r: real)
    ensures r >= a && r >= b
    ensures r == a || r == b
  {
    if a < b then b else a
  }

  /** Scaling by a positive factor keeps the order: u <= v iff u * a <= v * a. */
  lemma ScaleOrder(u: real, v: real, a: real, p: real, q: real)
    requires a > 0.0 && u * a == p && v * a == q
    ensures u <= v <==> p <= q
  {
    assert q - p == (v - u) * a;
    if u <= v {
      assert (v - u) * a >= 0.0;
    } else {
      assert (u - v) * a > 0.0;
    }
  }

  /** Dividing by a positive number and multiplying back gives the original. */
  lemma DivideThenMultiply(t: real, n: real)
    requires n > 0.0
    ensures (t / n) * n == t
  {
  }

  /** `xs` is obtained from `ys` by deleting elements, keeping the order of the rest. */
  ghost predicate IsSubsequence<T>(xs: seq<T>, ys: seq<T>)
    decreases |ys|
  {
    || xs == []
    || (&& ys != []
        && (|| IsSubsequence(xs, ys[..|ys| - 1])
            || (xs[|xs| - 1] == ys[|ys| - 1] && IsSubsequence(xs[..|xs| - 1], ys[..|ys| - 1]))))
  }

  /** No element occurs twice. */
  ghost predicate Distinct<T>(xs: seq<T>) {
    forall i, j :: 0 <= i < j < |xs| ==> xs[i] != xs[j]
  }

  lemma {:induction false} SubsequenceShorter<T>(xs: seq<T>, ys: seq<T>)
    requires IsSubsequence(xs, ys)
    ensures |xs| <= |ys|
    decreases |ys|
  {
    if xs != [] {
      if IsSubsequence(xs, ys[..|ys| - 1]) {
        SubsequenceShorter(xs, ys[..|ys| - 1]);
      } else {
        SubsequenceShorter(xs[..|xs| - 1], ys[..|ys| - 1]);
      }
    }
  }

  lemma {:induction false} SubsequenceElements<T>(xs: seq<T>, ys: seq<T>)
    requires IsSubsequence(xs, ys)
    ensures forall x :: x in xs ==> x in ys
    decreases |ys|
  {
    if xs != [] {
      var ys' := ys[..|ys| - 1];
      if IsSubsequence(xs, ys') {
        SubsequenceElements(xs, ys');
      } else {
        var xs' := xs[..|xs| - 1];
        SubsequenceElements(xs', ys');
        assert xs == xs' + [ys[|ys| - 1]];
        assert ys == ys' + [ys[|ys| - 1]];
      }
    }
  }

  /** A subsequence of a list without repetitions has no repetitions. */
  lemma {:induction false} SubsequenceDistinct<T>(xs: seq<T>, ys: seq<T>)
    requires IsSubsequence(xs, ys) && Distinct(ys)
    ensures Distinct(xs)
    decreases |ys|
  {
    if xs != [] {
      var ys' := ys[..|ys| - 1];
      assert Distinct(ys');
      if IsSubsequence(xs, ys') {
        SubsequenceDistinct(xs, ys');
      } else {
        var xs' := xs[..|xs| - 1];
        SubsequenceDistinct(xs', ys');
        SubsequenceElements(xs', ys');
        var last := ys[|ys| - 1];
        assert last !in ys' by {
          forall k | 0 <= k < |ys'| ensures ys'[k] != last {
            assert ys'[k] == ys[k];
          }
        }
        forall i, j | 0 <= i < j < |xs| ensures xs[i] != xs[j] {
          if j == |xs| - 1 {
            assert xs[i] == xs'[i];
            assert xs[i] in xs';
          } else {
            assert xs[i] == xs'[i] && xs[j] == xs'[j];
          }
        }
      }
    }
  }
}

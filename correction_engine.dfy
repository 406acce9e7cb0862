/**
 * The command-line predictor: it reports whether the quality classifier's
 * answer is the golden class and suggests, for each adjustable parameter that
 * is more than one golden deviation away from its mean, which way to move it
 * and by how much.  The classifier's answer is an input here.
 */
module CorrectionEngine {
  import opened Common

  /**
   * The class the predictor prints as golden.  The classifier is trained on
   * the k-means cluster column, so this is cluster id 1, whichever cluster
   * the signature was taken from.
   */
  const GoldenClass: int := 1

  datatype Verdict = MatchesGolden | DeviationDetected

  /** The message printed for the classifier's prediction. */
  function VerdictOf(prediction: int): (v: Verdict)
    ensures v == MatchesGolden <==> prediction == GoldenClass
    ensures v == DeviationDetected <==> prediction != GoldenClass
  {
    if prediction == GoldenClass then MatchesGolden else DeviationDetected
  }

  datatype Direction = Increase | Decrease

  /** Move `param` in `direction` by `amount` units. */
  datatype Suggestion = Suggestion(param: Param, direction: Direction, amount: real)

  /**
   * The decision for one parameter reading `value` against its golden
   * statistics `s`: nothing unless the reading is more than one deviation away.
   */
  function Suggest(p: Param, value: real, s: Stat): (r: Option<Suggestion>)
    ensures r.Some? <==> Abs(value - s.mean) > s.std
    ensures r.Some? ==> r.value.param == p && r.value.amount == Abs(value - s.mean) && r.value.amount >= 0.0
    ensures r.Some? ==> (r.value.direction == Decrease <==> value > s.mean)
    ensures r.Some? && s.std >= 0.0 ==> (r.value.direction == Increase <==> value < s.mean)
  {
    var diff := value - s.mean;
    if Abs(diff) > s.std then
      if diff > 0.0 then Some(Suggestion(p, Decrease, Abs(diff)))
      else Some(Suggestion(p, Increase, Abs(diff)))
    else None
  }

  /** The suggestions for the parameters `ps`, in their order. */
  function SuggestionsOver(ps: seq<Param>, b: Batch, sig: Signature): seq<Suggestion>
    requires Covers(sig, ps)
    decreases |ps|
  {
    if ps == [] then []
    else
      var p := ps[|ps| - 1];
      assert Covers(sig, ps[..|ps| - 1]) by {
        forall i | 0 <= i < |ps| - 1 ensures ps[..|ps| - 1][i] == ps[i] { }
      }
      var rest := SuggestionsOver(ps[..|ps| - 1], b, sig);
      match Suggest(p, b.Get(p), sig[p])
      case Some(s) => rest + [s]
      case None => rest
  }

  /** The parameters the suggestions name, in order. */
  function SuggestedParams(sugs: seq<Suggestion>): seq<Param> {
    seq(|sugs|, i requires 0 <= i < |sugs| => sugs[i].param)
  }

  /** Removing the last parameter keeps the coverage. */
  lemma CoversPrefix(sig: Signature, ps: seq<Param>)
    requires Covers(sig, ps) && ps != []
    ensures Covers(sig, ps[..|ps| - 1])
  {
    forall i | 0 <= i < |ps| - 1 ensures ps[..|ps| - 1][i] == ps[i] { }
  }

  /** Every suggestion is the decision for its own parameter. */
  lemma {:induction false} SuggestionsOverElements(ps: seq<Param>, b: Batch, sig: Signature)
    requires Covers(sig, ps)
    ensures forall s :: s in SuggestionsOver(ps, b, sig) ==>
      s.param in sig && Suggest(s.param, b.Get(s.param), sig[s.param]) == Some(s)
    decreases |ps|
  {
    if ps != [] {
      var ps' := ps[..|ps| - 1];
      CoversPrefix(sig, ps);
      SuggestionsOverElements(ps', b, sig);
      var p := ps[|ps| - 1];
      assert p in sig;
    }
  }

  /** The suggestions follow the order of `ps`, skipping some. */
  lemma {:induction false} SuggestionsOverOrder(ps: seq<Param>, b: Batch, sig: Signature)
    requires Covers(sig, ps)
    ensures IsSubsequence(SuggestedParams(SuggestionsOver(ps, b, sig)), ps)
    decreases |ps|
  {
    if ps != [] {
      var ps' := ps[..|ps| - 1];
      CoversPrefix(sig, ps);
      SuggestionsOverOrder(ps', b, sig);
      var rest := SuggestionsOver(ps', b, sig);
      var r := SuggestionsOver(ps, b, sig);
      var p := ps[|ps| - 1];
      if Suggest(p, b.Get(p), sig[p]).Some? {
        assert SuggestedParams(r)[..|r| - 1] == SuggestedParams(rest);
      } else {
        assert r == rest;
      }
    }
  }

  /** A parameter of `ps` gets a suggestion exactly when its reading is more than one deviation away. */
  lemma {:induction false} SuggestionsOverMembers(ps: seq<Param>, b: Batch, sig: Signature)
    requires Covers(sig, ps)
    ensures var r := SuggestionsOver(ps, b, sig);
      forall i :: 0 <= i < |ps| ==>
        (ps[i] in SuggestedParams(r) <==> Abs(b.Get(ps[i]) - sig[ps[i]].mean) > sig[ps[i]].std)
    decreases |ps|
  {
    if ps != [] {
      var ps' := ps[..|ps| - 1];
      CoversPrefix(sig, ps);
      SuggestionsOverMembers(ps', b, sig);
      SuggestionsOverElements(ps', b, sig);
      var rest := SuggestionsOver(ps', b, sig);
      var r := SuggestionsOver(ps, b, sig);
      var p := ps[|ps| - 1];
      if Suggest(p, b.Get(p), sig[p]).Some? {
        assert SuggestedParams(r) == SuggestedParams(rest) + [p];
      } else {
        assert r == rest;
      }
      forall i | 0 <= i < |ps|
        ensures ps[i] in SuggestedParams(r) <==> Abs(b.Get(ps[i]) - sig[ps[i]].mean) > sig[ps[i]].std
      {
        if i < |ps| - 1 {
          assert ps[i] == ps'[i];
        } else if ps[i] in SuggestedParams(rest) {
          var k :| 0 <= k < |rest| && SuggestedParams(rest)[k] == ps[i];
          assert Suggest(p, b.Get(p), sig[p]) == Some(rest[k]);
        }
      }
    }
  }

  /** Runs the correction loop over the four adjustable parameters. */
  method Corrections(b: Batch, sig: Signature) returns (sugs: seq<Suggestion>)
    requires Covers(sig, Controllable)
    ensures sugs == SuggestionsOver(Controllable, b, sig)
  {
    sugs := [];
    var i := 0;
    while i < |Controllable|
      invariant 0 <= i <= |Controllable|
      invariant Covers(sig, Controllable[..i])
      invariant sugs == SuggestionsOver(Controllable[..i], b, sig)
    {
      var p := Controllable[i];
      var diff := b.Get(p) - sig[p].mean;
      assert Controllable[..i + 1][..i] == Controllable[..i];
      if Abs(diff) > sig[p].std {
        if diff > 0.0 {
          sugs := sugs + [Suggestion(p, Decrease, Abs(diff))];
        } else {
          sugs := sugs + [Suggestion(p, Increase, Abs(diff))];
        }
      }
      i := i + 1;
    }
    assert Controllable[..i] == Controllable;
  }

  /**
   * What the predictor promises: only the four adjustable parameters are
   * considered, each at most once and in the fixed order, a parameter is
   * suggested exactly when its reading is more than one deviation from the
   * golden mean, and energy use never is.
   */
  lemma CorrectionsSpec(b: Batch, sig: Signature)
    requires Covers(sig, Controllable)
    ensures var r := SuggestionsOver(Controllable, b, sig);
      && IsSubsequence(SuggestedParams(r), Controllable)
      && Distinct(SuggestedParams(r))
      && (forall p :: p in sig && p != EnergyUsed ==> (p in SuggestedParams(r) <==> Abs(b.Get(p) - sig[p].mean) > sig[p].std))
      && EnergyUsed !in SuggestedParams(r)
      && (forall k :: 0 <= k < |r| ==> r[k].param in sig && r[k].amount == Abs(b.Get(r[k].param) - sig[r[k].param].mean))
  {
    var r := SuggestionsOver(Controllable, b, sig);
    SuggestionsOverElements(Controllable, b, sig);
    SuggestionsOverOrder(Controllable, b, sig);
    SuggestionsOverMembers(Controllable, b, sig);
    SubsequenceDistinct(SuggestedParams(r), Controllable);
    SubsequenceElements(SuggestedParams(r), Controllable);
    forall p | p in sig && p != EnergyUsed
      ensures p in SuggestedParams(r) <==> Abs(b.Get(p) - sig[p].mean) > sig[p].std
    {
      var i := match p
        case Temperature => 0 case Pressure => 1 case Ph => 2 case MixingSpeed => 3 case EnergyUsed => 0;
      assert Controllable[i] == p;
    }
  }

  /** A reading exactly one (non-negative) deviation from the mean gets no suggestion. */
  lemma BoundaryNotSuggested(p: Param, s: Stat)
    requires s.std >= 0.0
    ensures Suggest(p, s.mean + s.std, s) == None
    ensures Suggest(p, s.mean - s.std, s) == None
  {
  }
}

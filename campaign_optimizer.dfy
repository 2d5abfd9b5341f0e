/** The campaign-parameter optimizer of the prediction service: a brute-force
    search over a fixed grid of durations, point offers, discounts and
    minimum spends, scoring each predicted campaign against a redemption
    target and keeping the first best. */
module CampaignOptimizer {
  import opened Wrappers
  import opened Numbers

  const DURATIONS: seq<int> := [3, 7, 14]
  const POINT_OFFERS: seq<int> := [100, 200, 300, 500]
  const DISCOUNTS: seq<int> := [10, 15, 20, 25, 30]
  const MIN_SPENDS: seq<int> := [50, 100, 150, 200]

  datatype GridPoint = GridPoint(duration: int, points: int, discount: int, minSpend: int)

  /** What a grid point's prediction yields: a successful prediction (expected
      redemptions, success probability in percent), or any other status. */
  datatype Evaluation = Unsuccessful | Predicted(redemptions: real, probabilityPct: real)

  /** The parameters kept as best so far, with their prediction. */
  datatype Choice = Choice(point: GridPoint, expectedRedemptions: real, successProbability: real)

  /** The search state: the best score and the parameters that reached it. */
  datatype Best = Best(score: real, params: Option<Choice>)

  const INITIAL := Best(-1.0, None)

  /** 0.6 × (1 − |r − t| / t) + 0.4 × p / 100. */
  function Score(redemptions: real, probabilityPct: real, target: int): real
    requires target != 0
  {
    (1.0 - Abs(redemptions - target as real) / target as real) * 0.6 + probabilityPct / 100.0 * 0.4
  }

  // ------------------------------------------------------------------ the grid

  /** The innermost loop's points: every minimum spend, in order. */
  function SpendPoints(d: int, p: int, k: int, spends: seq<int>): seq<GridPoint> {
    if spends == [] then []
    else SpendPoints(d, p, k, spends[..|spends| - 1]) + [GridPoint(d, p, k, spends[|spends| - 1])]
  }

  /** The discount loop's points: discounts above the maximum are skipped. */
  function DiscountPoints(d: int, p: int, discounts: seq<int>, maxDiscount: real): seq<GridPoint> {
    if discounts == [] then []
    else
      var k := discounts[|discounts| - 1];
      DiscountPoints(d, p, discounts[..|discounts| - 1], maxDiscount) +
        (if k as real > maxDiscount then [] else SpendPoints(d, p, k, MIN_SPENDS))
  }

  function OfferPoints(d: int, offers: seq<int>, maxDiscount: real): seq<GridPoint> {
    if offers == [] then []
    else OfferPoints(d, offers[..|offers| - 1], maxDiscount) + DiscountPoints(d, offers[|offers| - 1], DISCOUNTS, maxDiscount)
  }

  function DurationPoints(durations: seq<int>, maxDiscount: real): seq<GridPoint> {
    if durations == [] then []
    else DurationPoints(durations[..|durations| - 1], maxDiscount) + OfferPoints(durations[|durations| - 1], POINT_OFFERS, maxDiscount)
  }

  /** The grid points the nested loops evaluate, in loop order. */
  function Grid(maxDiscount: real): seq<GridPoint> {
    DurationPoints(DURATIONS, maxDiscount)
  }

  lemma {:induction false} SpendMembers(d: int, p: int, k: int, spends: seq<int>, q: GridPoint)
    ensures q in SpendPoints(d, p, k, spends) <==>
      q.duration == d && q.points == p && q.discount == k && q.minSpend in spends
  {
    if spends != [] {
      var n := |spends| - 1;
      SpendMembers(d, p, k, spends[..n], q);
      assert spends == spends[..n] + [spends[n]];
    }
  }

  lemma {:induction false} DiscountMembers(d: int, p: int, discounts: seq<int>, maxDiscount: real, q: GridPoint)
    ensures q in DiscountPoints(d, p, discounts, maxDiscount) <==>
      q.duration == d && q.points == p && q.discount in discounts &&
      q.discount as real <= maxDiscount && q.minSpend in MIN_SPENDS
  {
    if discounts != [] {
      var n := |discounts| - 1;
      DiscountMembers(d, p, discounts[..n], maxDiscount, q);
      SpendMembers(d, p, discounts[n], MIN_SPENDS, q);
      assert discounts == discounts[..n] + [discounts[n]];
    }
  }

  lemma {:induction false} OfferMembers(d: int, offers: seq<int>, maxDiscount: real, q: GridPoint)
    ensures q in OfferPoints(d, offers, maxDiscount) <==>
      q.duration == d && q.points in offers && q.discount in DISCOUNTS &&
      q.discount as real <= maxDiscount && q.minSpend in MIN_SPENDS
  {
    if offers != [] {
      var n := |offers| - 1;
      OfferMembers(d, offers[..n], maxDiscount, q);
      DiscountMembers(d, offers[n], DISCOUNTS, maxDiscount, q);
      assert offers == offers[..n] + [offers[n]];
    }
  }

  lemma {:induction false} DurationMembers(durations: seq<int>, maxDiscount: real, q: GridPoint)
    ensures q in DurationPoints(durations, maxDiscount) <==>
      q.duration in durations && q.points in POINT_OFFERS && q.discount in DISCOUNTS &&
      q.discount as real <= maxDiscount && q.minSpend in MIN_SPENDS
  {
    if durations != [] {
      var n := |durations| - 1;
      DurationMembers(durations[..n], maxDiscount, q);
      OfferMembers(durations[n], POINT_OFFERS, maxDiscount, q);
      assert durations == durations[..n] + [durations[n]];
    }
  }

  /** Exactly the points of the full grid whose discount does not exceed
      the maximum are evaluated. */
  lemma GridIsFilteredProduct(maxDiscount: real, q: GridPoint)
    ensures q in Grid(maxDiscount) <==>
      q.duration in DURATIONS && q.points in POINT_OFFERS && q.discount in DISCOUNTS &&
      q.minSpend in MIN_SPENDS && q.discount as real <= maxDiscount
  {
    DurationMembers(DURATIONS, maxDiscount, q);
  }

  /** A maximum discount below the smallest grid discount leaves nothing to
      evaluate. */
  lemma SmallMaximumEmptiesGrid(maxDiscount: real)
    requires maxDiscount < 10.0
    ensures Grid(maxDiscount) == []
  {
    if Grid(maxDiscount) != [] {
      GridIsFilteredProduct(maxDiscount, Grid(maxDiscount)[0]);
      assert false;
    }
  }

  // ------------------------------------------------------------------ the fold

  /** One iteration of the innermost loop: an exception ends the search, an
      unsuccessful prediction is skipped, a successful one replaces the best
      when its score is strictly higher (a zero target divides by zero). */
  function Step(state: Try<Best>, q: GridPoint, outcome: Try<Evaluation>, target: int): Try<Best> {
    match state
    case Raised(e) => Raised(e)
    case Ok(best) =>
      match outcome
      case Raised(e) => Raised(e)
      case Ok(Unsuccessful) => Ok(best)
      case Ok(Predicted(r, p)) =>
        if target == 0 then Raised(ZeroDivisionError)
        else if Score(r, p, target) > best.score then Ok(Best(Score(r, p, target), Some(Choice(q, r, p))))
        else Ok(best)
  }

  /** The search state after evaluating `points` in order. */
  function Fold(trial: GridPoint -> Try<Evaluation>, target: int, points: seq<GridPoint>): Try<Best> {
    if points == [] then Ok(INITIAL)
    else
      var n := |points| - 1;
      Step(Fold(trial, target, points[..n]), points[n], trial(points[n]), target)
  }

  /** The evaluation of point i went through without raising. */
  predicate Fine(trial: GridPoint -> Try<Evaluation>, target: int, q: GridPoint) {
    trial(q).Ok? && (trial(q).value.Predicted? ==> target != 0)
  }

  /** The score of a point whose evaluation produced a prediction: the
      quantity the search maximises. */
  function ScoreAt(trial: GridPoint -> Try<Evaluation>, target: int, q: GridPoint): real
    requires Fine(trial, target, q) && trial(q).value.Predicted?
  {
    Score(trial(q).value.redemptions, trial(q).value.probabilityPct, target)
  }

  /** What the search returns: it raises iff some evaluation raises; otherwise
      every successful evaluation scores at most the best score, the best is
      -1 with no parameters when none scores above -1, and the parameters kept
      are those of the first point that reaches the best score. */
  lemma {:induction false} FoldIsFirstArgmax(trial: GridPoint -> Try<Evaluation>, target: int, points: seq<GridPoint>)
    ensures Fold(trial, target, points).Ok? <==> forall i :: 0 <= i < |points| ==> Fine(trial, target, points[i])
    ensures Fold(trial, target, points).Ok? ==>
      var best := Fold(trial, target, points).value;
      && best.score >= -1.0
      && (forall i :: 0 <= i < |points| && trial(points[i]).value.Predicted? ==>
            ScoreAt(trial, target, points[i]) <= best.score)
      && (best.params.None? <==> best.score == -1.0)
      && (best.params.Some? ==>
            exists i :: 0 <= i < |points| && points[i] == best.params.value.point &&
              trial(points[i]).value == Predicted(best.params.value.expectedRedemptions,
                                                  best.params.value.successProbability) &&
              ScoreAt(trial, target, points[i]) == best.score &&
              forall j :: 0 <= j < i && trial(points[j]).value.Predicted? ==>
                ScoreAt(trial, target, points[j]) < best.score)
  {
    if points != [] {
      var n := |points| - 1;
      var prefix := points[..n];
      FoldIsFirstArgmax(trial, target, prefix);
      assert forall i :: 0 <= i < n ==> prefix[i] == points[i];
      var before := Fold(trial, target, prefix);
      if before.Ok? && Fine(trial, target, points[n]) {
        var best := before.value;
        var q := points[n];
        if trial(q).value.Predicted? && ScoreAt(trial, target, q) > best.score {
          var after := Fold(trial, target, points).value;
          assert after.params.value.point == q;
          assert forall j :: 0 <= j < n && trial(points[j]).value.Predicted? ==>
            ScoreAt(trial, target, points[j]) < after.score;
        } else if best.params.Some? {
          var i :| 0 <= i < n && prefix[i] == best.params.value.point &&
            trial(prefix[i]).value == Predicted(best.params.value.expectedRedemptions,
                                                best.params.value.successProbability) &&
            ScoreAt(trial, target, prefix[i]) == best.score &&
            forall j :: 0 <= j < i && trial(prefix[j]).value.Predicted? ==>
              ScoreAt(trial, target, prefix[j]) < best.score;
          assert points[i] == prefix[i];
        }
      }
    }
  }

  /** Once the search has raised, evaluating further points changes nothing. */
  lemma {:induction false} RaisedIsFinal(trial: GridPoint -> Try<Evaluation>, target: int,
                                         points: seq<GridPoint>, more: seq<GridPoint>)
    requires points <= more
    requires Fold(trial, target, points).Raised?
    ensures Fold(trial, target, more) == Fold(trial, target, points)
  {
    if |more| > |points| {
      var n := |more| - 1;
      assert points <= more[..n];
      RaisedIsFinal(trial, target, points, more[..n]);
    } else {
      assert points == more;
    }
  }

  /** Evaluating one more point is one more step. */
  lemma FoldAppend(trial: GridPoint -> Try<Evaluation>, target: int, points: seq<GridPoint>, q: GridPoint)
    ensures Fold(trial, target, points + [q]) == Step(Fold(trial, target, points), q, trial(q), target)
  {
    assert (points + [q])[..|points|] == points;
  }

  // ----------------------------------------------------------- prefix facts

  lemma PrefixOfLonger(a: seq<GridPoint>, b: seq<GridPoint>, c: seq<GridPoint>)
    requires a <= b
    ensures a <= b + c
  {
    assert (b + c)[..|b|] == b;
  }

  lemma {:induction false} SpendPrefix(d: int, p: int, k: int, spends: seq<int>, i: nat)
    requires i <= |spends|
    ensures SpendPoints(d, p, k, spends[..i]) <= SpendPoints(d, p, k, spends)
  {
    if i < |spends| {
      var n := |spends| - 1;
      SpendPrefix(d, p, k, spends[..n], i);
      assert spends[..n][..i] == spends[..i];
      PrefixOfLonger(SpendPoints(d, p, k, spends[..i]), SpendPoints(d, p, k, spends[..n]), [GridPoint(d, p, k, spends[n])]);
    } else {
      assert spends[..i] == spends;
    }
  }

  lemma {:induction false} DiscountPrefix(d: int, p: int, discounts: seq<int>, maxDiscount: real, i: nat)
    requires i <= |discounts|
    ensures DiscountPoints(d, p, discounts[..i], maxDiscount) <= DiscountPoints(d, p, discounts, maxDiscount)
  {
    if i < |discounts| {
      var n := |discounts| - 1;
      DiscountPrefix(d, p, discounts[..n], maxDiscount, i);
      assert discounts[..n][..i] == discounts[..i];
      var k := discounts[n];
      PrefixOfLonger(DiscountPoints(d, p, discounts[..i], maxDiscount), DiscountPoints(d, p, discounts[..n], maxDiscount),
                     if k as real > maxDiscount then [] else SpendPoints(d, p, k, MIN_SPENDS));
    } else {
      assert discounts[..i] == discounts;
    }
  }

  lemma {:induction false} OfferPrefix(d: int, offers: seq<int>, maxDiscount: real, i: nat)
    requires i <= |offers|
    ensures OfferPoints(d, offers[..i], maxDiscount) <= OfferPoints(d, offers, maxDiscount)
  {
    if i < |offers| {
      var n := |offers| - 1;
      OfferPrefix(d, offers[..n], maxDiscount, i);
      assert offers[..n][..i] == offers[..i];
      PrefixOfLonger(OfferPoints(d, offers[..i], maxDiscount), OfferPoints(d, offers[..n], maxDiscount),
                     DiscountPoints(d, offers[n], DISCOUNTS, maxDiscount));
    } else {
      assert offers[..i] == offers;
    }
  }

  lemma {:induction false} DurationPrefix(durations: seq<int>, maxDiscount: real, i: nat)
    requires i <= |durations|
    ensures DurationPoints(durations[..i], maxDiscount) <= DurationPoints(durations, maxDiscount)
  {
    if i < |durations| {
      var n := |durations| - 1;
      DurationPrefix(durations[..n], maxDiscount, i);
      assert durations[..n][..i] == durations[..i];
      PrefixOfLonger(DurationPoints(durations[..i], maxDiscount), DurationPoints(durations[..n], maxDiscount),
                     OfferPoints(durations[n], POINT_OFFERS, maxDiscount));
    } else {
      assert durations[..i] == durations;
    }
  }

  lemma PrefixAfter(w: seq<GridPoint>, x: seq<GridPoint>, y: seq<GridPoint>)
    requires x <= y
    ensures w + x <= w + y
  {
    assert (w + y)[..|w + x|] == w + y[..|x|];
  }

  lemma PrefixTransitive(x: seq<GridPoint>, y: seq<GridPoint>, z: seq<GridPoint>)
    requires x <= y && y <= z
    ensures x <= z
  {
  }

  // Each loop's points extended by one more iteration of it.

  lemma SpendStep(d: int, p: int, k: int, e: nat)
    requires e < |MIN_SPENDS|
    ensures SpendPoints(d, p, k, MIN_SPENDS[..e + 1]) == SpendPoints(d, p, k, MIN_SPENDS[..e]) + [GridPoint(d, p, k, MIN_SPENDS[e])]
  {
    assert MIN_SPENDS[..e + 1][..e] == MIN_SPENDS[..e];
  }

  lemma DiscountStep(d: int, p: int, c: nat, maxDiscount: real)
    requires c < |DISCOUNTS|
    ensures DiscountPoints(d, p, DISCOUNTS[..c + 1], maxDiscount) ==
      DiscountPoints(d, p, DISCOUNTS[..c], maxDiscount) +
      (if DISCOUNTS[c] as real > maxDiscount then [] else SpendPoints(d, p, DISCOUNTS[c], MIN_SPENDS))
  {
    assert DISCOUNTS[..c + 1][..c] == DISCOUNTS[..c];
  }

  lemma OfferStep(d: int, b: nat, maxDiscount: real)
    requires b < |POINT_OFFERS|
    ensures OfferPoints(d, POINT_OFFERS[..b + 1], maxDiscount) ==
      OfferPoints(d, POINT_OFFERS[..b], maxDiscount) + DiscountPoints(d, POINT_OFFERS[b], DISCOUNTS, maxDiscount)
  {
    assert POINT_OFFERS[..b + 1][..b] == POINT_OFFERS[..b];
  }

  lemma DurationStep(a: nat, maxDiscount: real)
    requires a < |DURATIONS|
    ensures DurationPoints(DURATIONS[..a + 1], maxDiscount) ==
      DurationPoints(DURATIONS[..a], maxDiscount) + OfferPoints(DURATIONS[a], POINT_OFFERS, maxDiscount)
  {
    assert DURATIONS[..a + 1][..a] == DURATIONS[..a];
  }

  /** The points evaluated up to loop position (c, e) of the two inner loops
      start the points of the whole discount loop. */
  lemma WithinDiscounts(d: int, p: int, c: nat, e: nat, maxDiscount: real)
    requires c < |DISCOUNTS| && e <= |MIN_SPENDS| && DISCOUNTS[c] as real <= maxDiscount
    ensures DiscountPoints(d, p, DISCOUNTS[..c], maxDiscount) + SpendPoints(d, p, DISCOUNTS[c], MIN_SPENDS[..e])
            <= DiscountPoints(d, p, DISCOUNTS, maxDiscount)
  {
    var kc := DiscountPoints(d, p, DISCOUNTS[..c], maxDiscount);
    SpendPrefix(d, p, DISCOUNTS[c], MIN_SPENDS, e);
    assert MIN_SPENDS[..|MIN_SPENDS|] == MIN_SPENDS;
    PrefixAfter(kc, SpendPoints(d, p, DISCOUNTS[c], MIN_SPENDS[..e]), SpendPoints(d, p, DISCOUNTS[c], MIN_SPENDS));
    DiscountStep(d, p, c, maxDiscount);
    DiscountPrefix(d, p, DISCOUNTS, maxDiscount, c + 1);
    assert DISCOUNTS[..|DISCOUNTS|] == DISCOUNTS;
  }

  lemma WithinOffers(d: int, b: nat, x: seq<GridPoint>, maxDiscount: real)
    requires b < |POINT_OFFERS| && x <= DiscountPoints(d, POINT_OFFERS[b], DISCOUNTS, maxDiscount)
    ensures OfferPoints(d, POINT_OFFERS[..b], maxDiscount) + x <= OfferPoints(d, POINT_OFFERS, maxDiscount)
  {
    PrefixAfter(OfferPoints(d, POINT_OFFERS[..b], maxDiscount), x, DiscountPoints(d, POINT_OFFERS[b], DISCOUNTS, maxDiscount));
    OfferStep(d, b, maxDiscount);
    OfferPrefix(d, POINT_OFFERS, maxDiscount, b + 1);
    assert POINT_OFFERS[..|POINT_OFFERS|] == POINT_OFFERS;
  }

  lemma WithinDurations(a: nat, x: seq<GridPoint>, maxDiscount: real)
    requires a < |DURATIONS| && x <= OfferPoints(DURATIONS[a], POINT_OFFERS, maxDiscount)
    ensures DurationPoints(DURATIONS[..a], maxDiscount) + x <= Grid(maxDiscount)
  {
    PrefixAfter(DurationPoints(DURATIONS[..a], maxDiscount), x, OfferPoints(DURATIONS[a], POINT_OFFERS, maxDiscount));
    DurationStep(a, maxDiscount);
    DurationPrefix(DURATIONS, maxDiscount, a + 1);
    assert DURATIONS[..|DURATIONS|] == DURATIONS;
  }

  /** The points evaluated once the innermost loop at position (a, b, c)
      has finished start the grid. */
  lemma BlockInGrid(maxDiscount: real, a: nat, b: nat, c: nat, seen: seq<GridPoint>)
    requires a < |DURATIONS| && b < |POINT_OFFERS| && c < |DISCOUNTS| && DISCOUNTS[c] as real <= maxDiscount
    requires seen == DurationPoints(DURATIONS[..a], maxDiscount) + OfferPoints(DURATIONS[a], POINT_OFFERS[..b], maxDiscount) +
                     DiscountPoints(DURATIONS[a], POINT_OFFERS[b], DISCOUNTS[..c], maxDiscount) +
                     SpendPoints(DURATIONS[a], POINT_OFFERS[b], DISCOUNTS[c], MIN_SPENDS)
    ensures seen <= Grid(maxDiscount)
  {
    var d, p := DURATIONS[a], POINT_OFFERS[b];
    var kc := DiscountPoints(d, p, DISCOUNTS[..c], maxDiscount);
    var block := SpendPoints(d, p, DISCOUNTS[c], MIN_SPENDS);
    var ob := OfferPoints(d, POINT_OFFERS[..b], maxDiscount);
    WithinDiscounts(d, p, c, |MIN_SPENDS|, maxDiscount);
    assert MIN_SPENDS[..|MIN_SPENDS|] == MIN_SPENDS;
    WithinOffers(d, b, kc + block, maxDiscount);
    WithinDurations(a, ob + (kc + block), maxDiscount);
    Associative(ob, kc, block);
    Associative(DurationPoints(DURATIONS[..a], maxDiscount), ob + kc, block);
    Associative(DurationPoints(DURATIONS[..a], maxDiscount), ob, kc);
    Associative(DurationPoints(DURATIONS[..a], maxDiscount), ob, kc + block);
  }

  lemma Associative(x: seq<GridPoint>, y: seq<GridPoint>, z: seq<GridPoint>)
    ensures x + y + z == x + (y + z)
  {
  }

  // ---------------------------------------------------------------- the loops

  /** The nested loops of optimize_campaign_parameters, with `trial` standing
      for the prediction at a grid point: the result is the fold over the
      grid in loop order. The innermost loop is SearchSpends. */
  method SearchGrid(trial: GridPoint -> Try<Evaluation>, target: int, maxDiscount: real) returns (r: Try<Best>)
    ensures r == Fold(trial, target, Grid(maxDiscount))
  {
    var best := INITIAL;
    ghost var seen: seq<GridPoint> := [];
    for a := 0 to |DURATIONS|
      invariant seen == DurationPoints(DURATIONS[..a], maxDiscount)
      invariant Fold(trial, target, seen) == Ok(best)
    {
      var duration := DURATIONS[a];
      ghost var baseA := seen;
      for b := 0 to |POINT_OFFERS|
        invariant seen == baseA + OfferPoints(duration, POINT_OFFERS[..b], maxDiscount)
        invariant Fold(trial, target, seen) == Ok(best)
      {
        var points := POINT_OFFERS[b];
        ghost var baseB := seen;
        for c := 0 to |DISCOUNTS|
          invariant seen == baseB + DiscountPoints(duration, points, DISCOUNTS[..c], maxDiscount)
          invariant Fold(trial, target, seen) == Ok(best)
        {
          var discount := DISCOUNTS[c];
          DiscountStep(duration, points, c, maxDiscount);
          ghost var kc := DiscountPoints(duration, points, DISCOUNTS[..c], maxDiscount);
          ghost var block := SpendPoints(duration, points, discount, MIN_SPENDS);
          Associative(baseB, kc, block);
          if discount as real > maxDiscount {
            continue;
          }
          var outcome := SearchSpends(trial, target, seen, best, duration, points, discount);
          seen := seen + block;
          if outcome.Raised? {
            BlockInGrid(maxDiscount, a, b, c, seen);
            RaisedIsFinal(trial, target, seen, Grid(maxDiscount));
            return outcome;
          }
          best := outcome.value;
        }
        assert DISCOUNTS[..|DISCOUNTS|] == DISCOUNTS;
        OfferStep(duration, b, maxDiscount);
        Associative(baseA, OfferPoints(duration, POINT_OFFERS[..b], maxDiscount),
                    DiscountPoints(duration, points, DISCOUNTS, maxDiscount));
      }
      assert POINT_OFFERS[..|POINT_OFFERS|] == POINT_OFFERS;
      DurationStep(a, maxDiscount);
    }
    assert DURATIONS[..|DURATIONS|] == DURATIONS;
    return Ok(best);
  }

  /** The innermost loop, over the minimum spends for one duration, offer and
      discount, continuing the search from `best`: an exception or a zero
      target ends it at once. */
  method SearchSpends(trial: GridPoint -> Try<Evaluation>, target: int, ghost before: seq<GridPoint>, best: Best,
                      duration: int, points: int, discount: int) returns (r: Try<Best>)
    requires Fold(trial, target, before) == Ok(best)
    ensures r == Fold(trial, target, before + SpendPoints(duration, points, discount, MIN_SPENDS))
  {
    var current := best;
    ghost var seen := before;
    for e := 0 to |MIN_SPENDS|
      invariant seen == before + SpendPoints(duration, points, discount, MIN_SPENDS[..e])
      invariant Fold(trial, target, seen) == Ok(current)
    {
      var q := GridPoint(duration, points, discount, MIN_SPENDS[e]);
      SpendStep(duration, points, discount, e);
      Associative(before, SpendPoints(duration, points, discount, MIN_SPENDS[..e]), [q]);
      var outcome := trial(q);
      FoldAppend(trial, target, seen, q);
      seen := seen + [q];
      if outcome.Raised? || (outcome.value.Predicted? && target == 0) {
        SpendPrefix(duration, points, discount, MIN_SPENDS, e + 1);
        PrefixAfter(before, SpendPoints(duration, points, discount, MIN_SPENDS[..e + 1]),
                    SpendPoints(duration, points, discount, MIN_SPENDS));
        RaisedIsFinal(trial, target, seen, before + SpendPoints(duration, points, discount, MIN_SPENDS));
        return if outcome.Raised? then Raised(outcome.exc) else Raised(ZeroDivisionError);
      }
      if outcome.value.Predicted? {
        var redemptions, probability := outcome.value.redemptions, outcome.value.probabilityPct;
        var score := Score(redemptions, probability, target);
        if score > current.score {
          current := Best(score, Some(Choice(q, redemptions, probability)));
        }
      }
    }
    assert MIN_SPENDS[..|MIN_SPENDS|] == MIN_SPENDS;
    return Ok(current);
  }
}

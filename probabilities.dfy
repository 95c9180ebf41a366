/** normalize_probabilities: turn the two quoted prices into win probabilities
    weighted by the inverse of each price. */
module Probabilities {
  import opened Wrappers

  /** The two ways the normalisation fails: the explicit guard against a zero
      price (a ValueError the caller catches), and a division by zero when the
      inverse weights cancel out, which only a YES price equal to minus the NO
      price produces (a ZeroDivisionError nobody catches). */
  datatype NormalizeError = ZeroPrice | ZeroTotalInverse

  /** The probabilities as (YES, NO). */
  function NormalizeProbabilities(yesPrice: real, noPrice: real): (r: Result<(real, real), NormalizeError>)
    ensures r == Err(ZeroPrice) <==> yesPrice == 0.0 || noPrice == 0.0
    ensures r == Err(ZeroTotalInverse) <==> yesPrice != 0.0 && noPrice != 0.0 && yesPrice + noPrice == 0.0
  {
    if yesPrice == 0.0 || noPrice == 0.0 then Err(ZeroPrice)
    else
      var totalInverse := 1.0 / yesPrice + 1.0 / noPrice;
      InverseSum(yesPrice, noPrice);
      if totalInverse == 0.0 then Err(ZeroTotalInverse)
      else Ok(((1.0 / yesPrice) / totalInverse, (1.0 / noPrice) / totalInverse))
  }

  /** 1/y + 1/n is (y + n)/(y n), so it vanishes exactly when y + n does. */
  lemma InverseSum(y: real, n: real)
    requires y != 0.0 && n != 0.0
    ensures (1.0 / y + 1.0 / n) * (y * n) == y + n
    ensures 1.0 / y + 1.0 / n == 0.0 <==> y + n == 0.0
  {
    assert (1.0 / y) * y == 1.0;
    assert (1.0 / n) * n == 1.0;
    assert (1.0 / y + 1.0 / n) * (y * n) == ((1.0 / y) * y) * n + ((1.0 / n) * n) * y;
    assert y * n != 0.0;
  }

  /** Each probability is the OTHER price over the sum of prices, so the two
      probabilities add up to 1 and stand in the inverse ratio of the prices. */
  lemma NormalizedClosedForm(yesPrice: real, noPrice: real)
    requires NormalizeProbabilities(yesPrice, noPrice).Ok?
    ensures var (pYes, pNo) := NormalizeProbabilities(yesPrice, noPrice).value;
      && pYes == noPrice / (yesPrice + noPrice)
      && pNo == yesPrice / (yesPrice + noPrice)
      && pYes + pNo == 1.0
      && pYes * yesPrice == pNo * noPrice
  {
    var y, n := yesPrice, noPrice;
    InverseSum(y, n);
    var t := 1.0 / y + 1.0 / n;
    var s := y + n;
    assert t == s / (y * n);
    var (pYes, pNo) := NormalizeProbabilities(y, n).value;
    assert pYes == (1.0 / y) / t;
    assert pYes == n / s by {
      assert (1.0 / y) / t == (1.0 / y) * (y * n) / s;
      assert (1.0 / y) * (y * n) == n;
    }
    assert pNo == y / s by {
      assert (1.0 / n) / t == (1.0 / n) * (y * n) / s;
      assert (1.0 / n) * (y * n) == y;
    }
    assert pYes + pNo == (n + y) / s;
  }

  /** For strictly positive prices the normalisation succeeds, and both
      probabilities lie strictly between 0 and 1; a zero price always fails. */
  lemma NormalizedInUnitInterval(yesPrice: real, noPrice: real)
    requires yesPrice > 0.0 && noPrice > 0.0
    ensures NormalizeProbabilities(yesPrice, noPrice).Ok?
    ensures var (pYes, pNo) := NormalizeProbabilities(yesPrice, noPrice).value;
      0.0 < pYes < 1.0 && 0.0 < pNo < 1.0
  {
    NormalizedClosedForm(yesPrice, noPrice);
    var s := yesPrice + noPrice;
    assert noPrice / s < 1.0 by { assert noPrice < s; }
    assert yesPrice / s < 1.0 by { assert yesPrice < s; }
  }

  /** The cheaper outcome gets the larger probability. */
  lemma CheaperIsLikelier(yesPrice: real, noPrice: real)
    requires yesPrice > 0.0 && noPrice > 0.0
    ensures NormalizeProbabilities(yesPrice, noPrice).Ok?
    ensures var (pYes, pNo) := NormalizeProbabilities(yesPrice, noPrice).value;
      yesPrice < noPrice <==> pYes > pNo
  {
    NormalizedClosedForm(yesPrice, noPrice);
    var s := yesPrice + noPrice;
    assert s > 0.0;
    assert noPrice / s > yesPrice / s <==> noPrice > yesPrice;
  }
}

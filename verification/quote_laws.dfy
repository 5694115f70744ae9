/** What the quote promises in exact arithmetic, and the window a deadline leaves open. */
module QuoteLaws {
  import opened Wrappers
  import opened Config
  import opened Dex

  // ---------- one trade ----------

  lemma PaidFraction(amountIn: real, feeBps: int)
    requires amountIn > 0.0 && 0 <= feeBps < BPS
    ensures 0.0 < AfterFee(amountIn, feeBps) <= amountIn
    ensures AfterFee(amountIn, feeBps) == amountIn <==> feeBps == 0
  {
    var kept := (BPS as real - feeBps as real) / BPS as real;
    assert 0.0 < kept <= 1.0 && (kept == 1.0 <==> feeBps == 0);
    assert AfterFee(amountIn, feeBps) == amountIn * kept;
    hide AfterFee;
    Positive(amountIn, kept);
    Fraction(amountIn, kept);
  }

  lemma Fraction(amount: real, kept: real)
    requires amount > 0.0 && kept <= 1.0
    ensures amount * kept <= amount
    ensures amount * kept == amount <==> kept == 1.0
  {
    assert amount - amount * kept == amount * (1.0 - kept);
    if kept < 1.0 {
      Positive(amount, 1.0 - kept);
    }
  }

  lemma Positive(a: real, b: real)
    requires a > 0.0 && b > 0.0
    ensures a * b > 0.0
  {
  }

  /** The quote is the one output that keeps the product of the fee-paying input and the rest. */
  lemma QuoteKeepsProduct(reserveIn: real, reserveOut: real, paid: real, out: real)
    requires reserveIn > 0.0 && reserveOut > 0.0 && paid > 0.0
    ensures out == CurveOut(reserveIn, reserveOut, paid)
            <==> (reserveIn + paid) * (reserveOut - out) == reserveIn * reserveOut
  {
    var sum := reserveIn + paid;
    var quote := CurveOut(reserveIn, reserveOut, paid);
    assert quote * sum == paid * reserveOut;
    assert sum * (reserveOut - out) - reserveIn * reserveOut == sum * (quote - out);
    if sum * (quote - out) == 0.0 {
      assert quote - out == 0.0;
    }
  }

  /** Positive, and never the whole output reserve. */
  lemma QuoteBounds(reserveIn: real, reserveOut: real, paid: real)
    requires reserveIn > 0.0 && reserveOut > 0.0 && paid > 0.0
    ensures 0.0 < CurveOut(reserveIn, reserveOut, paid) < reserveOut
  {
    var sum := reserveIn + paid;
    var quote := CurveOut(reserveIn, reserveOut, paid);
    assert quote * sum == paid * reserveOut;
    assert paid * reserveOut > 0.0;
    Cancel(0.0, quote, sum);
    assert paid * reserveOut < sum * reserveOut;
    Cancel(quote, reserveOut, sum);
  }

  lemma Cancel(a: real, b: real, factor: real)
    requires factor > 0.0
    ensures a < b <==> a * factor < b * factor
  {
    if a < b {
      assert (b - a) * factor > 0.0;
    } else {
      assert (a - b) * factor >= 0.0;
    }
  }

  lemma QuoteIncreases(reserveIn: real, reserveOut: real, less: real, more: real)
    requires reserveIn > 0.0 && reserveOut > 0.0 && 0.0 < less < more
    ensures CurveOut(reserveIn, reserveOut, less) < CurveOut(reserveIn, reserveOut, more)
  {
    var low := CurveOut(reserveIn, reserveOut, less);
    var high := CurveOut(reserveIn, reserveOut, more);
    QuoteBounds(reserveIn, reserveOut, less);
    QuoteKeepsProduct(reserveIn, reserveOut, less, low);
    QuoteKeepsProduct(reserveIn, reserveOut, more, high);
    assert (reserveIn + more) * (reserveOut - low) == reserveIn * reserveOut + (more - less) * (reserveOut - low);
    assert (more - less) * (reserveOut - low) > 0.0;
    assert (reserveIn + more) * (reserveOut - high) < (reserveIn + more) * (reserveOut - low);
    Cancel(reserveOut - high, reserveOut - low, reserveIn + more);
  }

  /** Crediting the whole input never lowers the product of the reserves; without a fee it keeps it. */
  lemma ProductNeverFalls(reserveIn: real, reserveOut: real, amountIn: real, feeBps: int)
    requires reserveIn > 0.0 && reserveOut > 0.0 && amountIn > 0.0 && 0 <= feeBps < BPS
    ensures var out := CurveOut(reserveIn, reserveOut, AfterFee(amountIn, feeBps));
            && (reserveIn + amountIn) * (reserveOut - out) >= reserveIn * reserveOut
            && ((reserveIn + amountIn) * (reserveOut - out) == reserveIn * reserveOut <==> feeBps == 0)
  {
    var paid := AfterFee(amountIn, feeBps);
    PaidFraction(amountIn, feeBps);
    var out := CurveOut(reserveIn, reserveOut, paid);
    QuoteBounds(reserveIn, reserveOut, paid);
    QuoteKeepsProduct(reserveIn, reserveOut, paid, out);
    assert (reserveIn + amountIn) * (reserveOut - out)
        == (reserveIn + paid) * (reserveOut - out) + (amountIn - paid) * (reserveOut - out);
    if feeBps != 0 {
      assert (amountIn - paid) * (reserveOut - out) > 0.0;
    }
  }

  // ---------- splitting ----------

  /** The outputs of successive trades, each at the reserves the ones before left behind. */
  function Successive(reserveIn: real, reserveOut: real, amounts: seq<real>, feeBps: int): (total: real)
    requires reserveIn > 0.0 && reserveOut > 0.0 && 0 <= feeBps < BPS
    requires forall i :: 0 <= i < |amounts| ==> amounts[i] > 0.0
    decreases |amounts|
  {
    if amounts == [] then 0.0
    else
      PaidFraction(amounts[0], feeBps);
      QuoteBounds(reserveIn, reserveOut, AfterFee(amounts[0], feeBps));
      var out := CurveOut(reserveIn, reserveOut, AfterFee(amounts[0], feeBps));
      out + Successive(reserveIn + amounts[0], reserveOut - out, amounts[1..], feeBps)
  }

  function Total(amounts: seq<real>): real {
    if amounts == [] then 0.0 else amounts[0] + Total(amounts[1..])
  }

  lemma {:induction false} TotalPositive(amounts: seq<real>)
    requires forall i :: 0 <= i < |amounts| ==> amounts[i] > 0.0
    ensures amounts != [] ==> Total(amounts) > 0.0
  {
    if amounts != [] {
      TotalPositive(amounts[1..]);
    }
  }

  /** The output reserve that is left after a trade. */
  lemma LeftOver(reserveIn: real, reserveOut: real, paid: real)
    requires reserveIn > 0.0 && reserveOut > 0.0 && paid > 0.0
    ensures reserveOut - CurveOut(reserveIn, reserveOut, paid) == reserveOut * (reserveIn / (reserveIn + paid))
  {
    var sum := reserveIn + paid;
    var share := reserveIn / sum;
    assert share * sum == reserveIn;
    var out := CurveOut(reserveIn, reserveOut, paid);
    assert out * sum == paid * reserveOut;
    assert (reserveOut - out) * sum == (reserveOut * share) * sum;
    Equal(reserveOut - out, reserveOut * share, sum);
  }

  lemma Equal(a: real, b: real, factor: real)
    requires factor > 0.0 && a * factor == b * factor
    ensures a == b
  {
    Cancel(a, b, factor);
    Cancel(b, a, factor);
  }

  /** Two trades leave at least as much behind as one for both inputs. */
  lemma SharesMultiply(reserveIn: real, x: real, y: real, kept: real)
    requires reserveIn > 0.0 && x > 0.0 && y > 0.0 && 0.0 < kept <= 1.0
    ensures (reserveIn / (reserveIn + kept * x)) * ((reserveIn + x) / (reserveIn + x + kept * y))
            >= reserveIn / (reserveIn + kept * (x + y))
  {
    var a, b, c := reserveIn + kept * x, reserveIn + x + kept * y, reserveIn + kept * (x + y);
    assert kept * x > 0.0 && kept * y > 0.0 && kept * (x + y) == kept * x + kept * y;
    assert (reserveIn + x) * c >= a * b by {
      Expanded(reserveIn, x, kept * x, kept * y);
      FeeRemains(x, kept, kept * y);
    }
    Fractions(reserveIn, reserveIn + x, a, b, c);
  }

  lemma FeeRemains(x: real, kept: real, v: real)
    requires x > 0.0 && 0.0 < kept <= 1.0 && v > 0.0
    ensures v * (x - kept * x) >= 0.0
  {
    assert x - kept * x == (1.0 - kept) * x;
    if kept < 1.0 {
      Positive(1.0 - kept, x);
      Positive(v, x - kept * x);
    }
  }

  lemma Expanded(r: real, x: real, u: real, v: real)
    ensures (r + x) * (r + u + v) - (r + u) * (r + x + v) == v * (x - u)
  {
    assert (r + x) * (r + u + v) == r * r + r * u + r * v + x * r + x * u + x * v;
    assert (r + u) * (r + x + v) == r * r + r * x + r * v + u * r + u * x + u * v;
  }

  lemma Fractions(p: real, q: real, a: real, b: real, c: real)
    requires p > 0.0 && a > 0.0 && b > 0.0 && c > 0.0 && q * c >= a * b
    ensures (p / a) * (q / b) >= p / c
  {
    var left, right := (p / a) * (q / b), p / c;
    assert (p / a) * a == p && (q / b) * b == q && right * c == p;
    assert left * (a * b) == p * q by {
      assert left * (a * b) == ((p / a) * a) * ((q / b) * b);
    }
    assert (right * c) * (a * b) == p * (a * b);
    assert (left * c) * (a * b) == (left * (a * b)) * c == p * q * c == p * (q * c);
    assert p * (q * c) >= p * (a * b);
    assert (left * c) * (a * b) >= (right * c) * (a * b);
    assert a * b > 0.0;
    if left * c < right * c {
      Cancel(left * c, right * c, a * b);
    }
    if left < right {
      Cancel(left, right, c);
    }
  }

  lemma AtMost(a: real, b: real, factor: real)
    requires factor > 0.0 && a <= b
    ensures factor * a <= factor * b
  {
    Cancel(b, a, factor);
  }

  lemma SplittingTwice(reserveIn: real, reserveOut: real, x: real, y: real, kept: real)
    requires reserveIn > 0.0 && reserveOut > 0.0 && x > 0.0 && y > 0.0 && 0.0 < kept <= 1.0
    requires kept * x > 0.0 && kept * y > 0.0 && kept * (x + y) > 0.0
    requires CurveOut(reserveIn, reserveOut, kept * x) < reserveOut
    ensures var out := CurveOut(reserveIn, reserveOut, kept * x);
            out + CurveOut(reserveIn + x, reserveOut - out, kept * y)
            <= CurveOut(reserveIn, reserveOut, kept * (x + y))
  {
    hide CurveOut;
    var out := CurveOut(reserveIn, reserveOut, kept * x);
    LeftOver(reserveIn, reserveOut, kept * x);
    LeftOver(reserveIn + x, reserveOut - out, kept * y);
    LeftOver(reserveIn, reserveOut, kept * (x + y));
    SharesMultiply(reserveIn, x, y, kept);
    var first := reserveIn / (reserveIn + kept * x);
    var second := (reserveIn + x) / (reserveIn + x + kept * y);
    var both := reserveIn / (reserveIn + kept * (x + y));
    AtMost(both, first * second, reserveOut);
    assert (reserveOut * first) * second == reserveOut * (first * second);
  }

  lemma SplitWithFee(reserveIn: real, reserveOut: real, x: real, y: real, feeBps: int)
    requires reserveIn > 0.0 && reserveOut > 0.0 && x > 0.0 && y > 0.0 && 0 <= feeBps < BPS
    ensures AfterFee(x, feeBps) > 0.0 && AfterFee(y, feeBps) > 0.0 && AfterFee(x + y, feeBps) > 0.0
    ensures var out := CurveOut(reserveIn, reserveOut, AfterFee(x, feeBps));
            && 0.0 < out < reserveOut
            && out + CurveOut(reserveIn + x, reserveOut - out, AfterFee(y, feeBps))
               <= CurveOut(reserveIn, reserveOut, AfterFee(x + y, feeBps))
  {
    PaidFraction(x, feeBps);
    PaidFraction(y, feeBps);
    PaidFraction(x + y, feeBps);
    QuoteBounds(reserveIn, reserveOut, AfterFee(x, feeBps));
    var kept := (BPS as real - feeBps as real) / BPS as real;
    assert 0.0 < kept <= 1.0;
    Factored(x, kept, feeBps);
    Factored(y, kept, feeBps);
    Factored(x + y, kept, feeBps);
    hide AfterFee, CurveOut;
    SplittingTwice(reserveIn, reserveOut, x, y, kept);
  }

  lemma Factored(amountIn: real, kept: real, feeBps: int)
    requires kept == (BPS as real - feeBps as real) / BPS as real
    ensures AfterFee(amountIn, feeBps) == kept * amountIn
  {
  }

  /** However a trade is split into successive ones, it never yields more than one quote for the whole. */
  lemma {:induction false} SplittingNeverPays(reserveIn: real, reserveOut: real, amounts: seq<real>, feeBps: int)
    requires reserveIn > 0.0 && reserveOut > 0.0 && 0 <= feeBps < BPS
    requires amounts != [] && forall i :: 0 <= i < |amounts| ==> amounts[i] > 0.0
    ensures Total(amounts) > 0.0 && AfterFee(Total(amounts), feeBps) > 0.0
    ensures Successive(reserveIn, reserveOut, amounts, feeBps)
            <= CurveOut(reserveIn, reserveOut, AfterFee(Total(amounts), feeBps))
    decreases |amounts|
  {
    hide AfterFee, CurveOut;
    var x, rest := amounts[0], amounts[1..];
    TotalPositive(amounts);
    PaidFraction(Total(amounts), feeBps);
    if rest != [] {
      TotalPositive(rest);
      SplitWithFee(reserveIn, reserveOut, x, Total(rest), feeBps);
      var out := CurveOut(reserveIn, reserveOut, AfterFee(x, feeBps));
      SplittingNeverPays(reserveIn + x, reserveOut - out, rest, feeBps);
    }
  }

  // ---------- the client's quote ----------

  /**
   On a liquid pair the client quotes for either token, and only for those two: less than the reserve of the
   other token, and such that the product of the reserves is kept when the input less the fee is added to the
   reserve of the token that is paid in.
   */
  lemma QuoteExactInIsQuote(snapshot: PairSnapshot, src: string, amountIn: real, feeBps: int)
    requires snapshot.reserve0 > 0.0 && snapshot.reserve1 > 0.0 && amountIn > 0.0 && 0 <= feeBps < BPS
    ensures QuoteExactIn(snapshot, src, amountIn, feeBps).Some? <==> src in {snapshot.token0, snapshot.token1}
    ensures var quote := QuoteExactIn(snapshot, src, amountIn, feeBps);
            var reserveIn := if src == snapshot.token0 then snapshot.reserve0 else snapshot.reserve1;
            var reserveOut := if src == snapshot.token0 then snapshot.reserve1 else snapshot.reserve0;
            var share := (10_000 - feeBps) as real / 10_000.0;
            quote.Some? ==>
              && 0.0 < quote.value < reserveOut
              && (reserveIn + amountIn * share) * (reserveOut - quote.value) == reserveIn * reserveOut
  {
    PaidFraction(amountIn, feeBps);
    if src in {snapshot.token0, snapshot.token1} {
      var reserves := snapshot.ReservesForSrc(src).value;
      var paid := AfterFee(amountIn, feeBps);
      QuoteBounds(reserves.0, reserves.1, paid);
      QuoteKeepsProduct(reserves.0, reserves.1, paid, CurveOut(reserves.0, reserves.1, paid));
    }
  }

  /** A pair has a price exactly if it is liquid, and what one unit of the first token is worth in the second. */
  lemma PriceIsRatio(snapshot: PairSnapshot)
    ensures snapshot.Price().Some? <==> snapshot.reserve0 > 0.0 && snapshot.reserve1 > 0.0
    ensures snapshot.Price().Some? ==> snapshot.Price().value * snapshot.reserve0 == snapshot.reserve1
    ensures snapshot.Price().Some? ==> snapshot.Price().value > 0.0
  {
    if snapshot.Price().Some? {
      Divided(snapshot.reserve1, snapshot.reserve0);
    }
  }

  lemma Divided(a: real, b: real)
    requires a > 0.0 && b > 0.0
    ensures (a / b) * b == a && a / b > 0.0
  {
  }

  // ---------- deadlines ----------

  /**
   A deadline exists exactly for a positive span.  It ends five seconds early, but not less than one second
   after its base.
   */
  lemma DeadlineWindow(secondsFromNow: int, base: int)
    ensures XianDeadline(secondsFromNow, base).Some? <==> secondsFromNow > 0
    ensures secondsFromNow > 0 ==>
              var deadline := XianDeadline(secondsFromNow, base).value;
              && deadline == base + (if secondsFromNow >= 6 then secondsFromNow - 5 else 1) * SECOND
              && base + SECOND <= deadline <= base + secondsFromNow * SECOND
  {
  }

  // ---------- calls ----------

  /** A quote less this many hundredths of a per cent. */
  function Reduced(quote: real, bps: int): real {
    quote * ((10_000 - bps) as real / 10_000.0)
  }

  /** The seconds a deadline really allows: five fewer than asked for, and at least one. */
  function Span(seconds: int): int {
    if seconds >= 6 then seconds - 5 else 1
  }

  /** Whom a direct swap pays: the action's recipient, else the wallet's, else the signer; empty ones are unset. */
  function Payee(action: SwapExactInActionConfig, wallet: WalletConfig, signer: string): string {
    match (action.recipient, wallet.recipient)
    case (Some(to), _) =>
      if to != "" then to else if wallet.recipient.GetOr("") != "" then wallet.recipient.value else signer
    case (None, Some(to)) => if to != "" then to else signer
    case (None, None) => signer
  }

  /** The router call a direct wallet makes, exactly if its deadline exists. */
  lemma DirectCall(
    config: AutomationConfig, signer: string, snapshot: PairSnapshot, action: SwapExactInActionConfig,
    least: real, base: int)
    requires config.custody.DirectWallet?
    ensures var call := BuildSwapExactInCall(config, Some(signer), snapshot, action, least, base);
            if action.deadlineSeconds <= 0 then call.None?
            else call == Some(RouterSwap(config.dex.routerContract, action.amountIn, least, snapshot.pairId, action.src,
                                         Payee(action, config.wallet, signer),
                                         XianDeadline(action.deadlineSeconds, base).value))
  {
  }
}

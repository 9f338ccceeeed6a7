/** The cost calculation engine: input record -> eight result fields, each
    rounded to 8 decimals from its own unrounded value. Arithmetic is over
    `real`; `Math.round(v * 1e8) / 1e8` is `Floor(v * 1e8 + 1/2) / 1e8`. */
module Calculations {
  import opened Types

  /** 1e8: eight decimal places. */
  const Scale: real := 100000000.0
  /** One unit in the eighth decimal place, and half of it. */
  const Unit: real := 0.00000001
  const HalfUnit: real := 0.000000005

  /** `v` has at most eight decimals: `v * 1e8` is a whole number. */
  predicate OnGrid(v: real) {
    (v * Scale).Floor as real == v * Scale
  }

  /** `Math.round(v * 1e8) / 1e8`: the grid point nearest to `v`, ties
      going up (towards +infinity), as `Math.round` does. */
  function Round8(v: real): (r: real)
    ensures OnGrid(r)
    ensures r - HalfUnit <= v < r + HalfUnit
    ensures 0.0 <= v ==> 0.0 <= r
  {
    var k := (v * Scale + 0.5).Floor;
    assert (k as real / Scale) * Scale == k as real;
    k as real / Scale
  }

  /** The rounding window determines the result: a grid point within half
      a unit below-or-at / strictly-above `v` is `Round8(v)`. */
  lemma {:induction false} Round8Unique(v: real, r: real)
    requires OnGrid(r)
    requires r - HalfUnit <= v < r + HalfUnit
    ensures Round8(v) == r
  {
    var q := Round8(v);
    var k := (r * Scale).Floor;
    var m := (q * Scale).Floor;
    assert k as real == r * Scale;
    assert m as real == q * Scale;
    assert k as real - 0.5 <= v * Scale < k as real + 0.5;
    assert m as real - 0.5 <= v * Scale < m as real + 0.5;
    assert k == m;
  }

  /** Rounding a value that already has eight decimals changes nothing, so
      rounding twice is rounding once. */
  lemma Round8Idempotent(v: real)
    ensures OnGrid(v) ==> Round8(v) == v
    ensures Round8(Round8(v)) == Round8(v)
  {
    if OnGrid(v) {
      Round8Unique(v, v);
    }
    Round8Unique(Round8(v), Round8(v));
  }

  /** Rounding is monotone. */
  lemma {:induction false} Round8Monotone(v: real, w: real)
    requires v <= w
    ensures Round8(v) <= Round8(w)
  {
    var p := Round8(v);
    var q := Round8(w);
    var k := (p * Scale).Floor;
    var m := (q * Scale).Floor;
    assert k as real == p * Scale;
    assert m as real == q * Scale;
    assert k as real - 0.5 <= v * Scale;
    assert w * Scale < m as real + 0.5;
    assert k <= m;
  }

  /** Rounding a sum against summing the rounded parts: the two differ by
      at most one unit in the eighth decimal place. */
  lemma {:induction false} Round8Sum(u: real, v: real)
    ensures -Unit <= Round8(u + v) - (Round8(u) + Round8(v)) <= Unit
  {
    var p, q, s := Round8(u), Round8(v), Round8(u + v);
    var i, j, k := (p * Scale).Floor, (q * Scale).Floor, (s * Scale).Floor;
    assert i as real == p * Scale && j as real == q * Scale && k as real == s * Scale;
    assert i as real - 0.5 <= u * Scale < i as real + 0.5;
    assert j as real - 0.5 <= v * Scale < j as real + 0.5;
    assert k as real - 0.5 <= (u + v) * Scale < k as real + 0.5;
    assert -1 <= k - (i + j) <= 1;
    assert s - (p + q) == (k - (i + j)) as real / Scale;
  }

  /** The token factor in force: `tokenFactor` in chat mode,
      `tokenFactorAudio` otherwise. */
  function Factor(i: Inputs): real {
    if i.mode == Chat then i.tokenFactor else i.tokenFactorAudio
  }

  /** Messages across all conversations, `x * y`, and user/AI pairs across
      all conversations, `x * y / 2`. */
  function TotalMessages(i: Inputs): real { i.x * i.y }
  function TotalPairs(i: Inputs): real { TotalMessages(i) / 2.0 }

  /** The eight fields before rounding. Token counts are words per pair
      times pairs across all conversations times the token factor; each
      cost is its token count times its price per token; the per-message
      cost is the figure that, multiplied back by the number of messages,
      gives the total cost (0 when there are no messages); a pair costs
      twice a message. */
  function ExactResults(i: Inputs): (r: Results)
    ensures r.inputTokens == i.a * TotalPairs(i) * Factor(i)
    ensures r.outputTokens == i.b * TotalPairs(i) * Factor(i)
    ensures r.totalTokens == r.inputTokens + r.outputTokens
    ensures r.inputCost == r.inputTokens * i.cIn
    ensures r.outputCost == r.outputTokens * i.cOut
    ensures r.totalCost == r.inputCost + r.outputCost
    ensures TotalMessages(i) > 0.0 ==> r.perMessageCost * TotalMessages(i) == r.totalCost
    ensures TotalMessages(i) <= 0.0 ==> r.perMessageCost == 0.0 && r.perPairCost == 0.0
    ensures r.perPairCost == 2.0 * r.perMessageCost
  {
    Engine(Factor(i), i.x, i.y, i.a, i.b, i.cIn, i.cOut)
  }

  /** The body of `calculateResults` before rounding, over the factor in
      force and the seven numeric inputs. */
  function Engine(f: real, x: real, y: real, a: real, b: real, cIn: real, cOut: real): Results {
    var inputTokens := a * (x / 2.0) * y * f;
    var outputTokens := b * (x / 2.0) * y * f;
    var totalTokens := inputTokens + outputTokens;
    var inputCost := inputTokens * cIn;
    var outputCost := outputTokens * cOut;
    var totalCost := inputCost + outputCost;
    var perMessageCost := if x * y > 0.0 then totalCost / (x * y) else 0.0;
    var totalPairs := (x * y) / 2.0;
    var perPairCost := if totalPairs > 0.0 then totalCost / totalPairs else 0.0;
    Results(inputTokens, outputTokens, totalTokens, inputCost, outputCost,
            totalCost, perMessageCost, perPairCost)
  }

  /** Each field of `r` is the 8-decimal rounding of the same field of `e`. */
  predicate RoundedFrom(r: Results, e: Results) {
    && r.inputTokens == Round8(e.inputTokens)
    && r.outputTokens == Round8(e.outputTokens)
    && r.totalTokens == Round8(e.totalTokens)
    && r.inputCost == Round8(e.inputCost)
    && r.outputCost == Round8(e.outputCost)
    && r.totalCost == Round8(e.totalCost)
    && r.perMessageCost == Round8(e.perMessageCost)
    && r.perPairCost == Round8(e.perPairCost)
  }

  /** Every field of `r` has eight decimals and lies within half a unit of
      the same field of `e`. */
  predicate Approximates(r: Results, e: Results) {
    && Near(r.inputTokens, e.inputTokens)
    && Near(r.outputTokens, e.outputTokens)
    && Near(r.totalTokens, e.totalTokens)
    && Near(r.inputCost, e.inputCost)
    && Near(r.outputCost, e.outputCost)
    && Near(r.totalCost, e.totalCost)
    && Near(r.perMessageCost, e.perMessageCost)
    && Near(r.perPairCost, e.perPairCost)
  }

  predicate Near(r: real, v: real) {
    OnGrid(r) && r - HalfUnit <= v < r + HalfUnit
  }

  /** `calculateResults`: every field is rounded independently from its
      own unrounded value, so each is on the 8-decimal grid and within half
      a unit of the exact figure. */
  function CalculateResults(i: Inputs): (r: Results)
    ensures Approximates(r, ExactResults(i))
  {
    var e := ExactResults(i);
    Results(Round8(e.inputTokens), Round8(e.outputTokens), Round8(e.totalTokens),
            Round8(e.inputCost), Round8(e.outputCost), Round8(e.totalCost),
            Round8(e.perMessageCost), Round8(e.perPairCost))
  }

  /** The approximation contract pins the result down completely: it is
      exactly the field-by-field rounding of the unrounded figures. */
  lemma {:induction false} ApproximationDeterminesResults(i: Inputs, r: Results)
    requires Approximates(r, ExactResults(i))
    ensures r == CalculateResults(i)
    ensures RoundedFrom(r, ExactResults(i))
  {
    var e := ExactResults(i);
    Round8Unique(e.inputTokens, r.inputTokens);
    Round8Unique(e.outputTokens, r.outputTokens);
    Round8Unique(e.totalTokens, r.totalTokens);
    Round8Unique(e.inputCost, r.inputCost);
    Round8Unique(e.outputCost, r.outputCost);
    Round8Unique(e.totalCost, r.totalCost);
    Round8Unique(e.perMessageCost, r.perMessageCost);
    Round8Unique(e.perPairCost, r.perPairCost);
  }

  /** The mode matters only through the factor it selects: when both
      factors are equal, chat and voice give identical results. */
  lemma ModeOnlySelectsFactor(i: Inputs)
    requires i.tokenFactor == i.tokenFactorAudio
    ensures CalculateResults(i.(mode := Chat)) == CalculateResults(i.(mode := Voice))
  {
    assert Factor(i.(mode := Chat)) == Factor(i.(mode := Voice));
  }

  /** No messages or no conversations: all eight fields are 0. */
  lemma {:induction false} NoVolumeNoCost(i: Inputs)
    requires i.x == 0.0 || i.y == 0.0
    ensures CalculateResults(i) == Results(0.0, 0.0, 0.0, 0.0, 0.0, 0.0, 0.0, 0.0)
  {
    assert TotalMessages(i) == 0.0;
    assert TotalPairs(i) == 0.0;
    Round8Idempotent(0.0);
  }

  /** `totalTokens` and `totalCost` are rounded from the unrounded sums, so
      they can differ from the sum of the rounded parts, by at most one unit
      in the eighth decimal place. */
  lemma {:induction false} TotalsNearSumOfParts(i: Inputs)
    ensures var r := CalculateResults(i);
      && -Unit <= r.totalTokens - (r.inputTokens + r.outputTokens) <= Unit
      && -Unit <= r.totalCost - (r.inputCost + r.outputCost) <= Unit
  {
    var e := ExactResults(i);
    Round8Sum(e.inputTokens, e.outputTokens);
    Round8Sum(e.inputCost, e.outputCost);
  }

  /** The engine fields of a non-negative record. */
  predicate EngineNonNegative(i: Inputs) {
    && i.x >= 0.0 && i.y >= 0.0 && i.a >= 0.0 && i.b >= 0.0
    && i.tokenFactor >= 0.0 && i.tokenFactorAudio >= 0.0
    && i.cIn >= 0.0 && i.cOut >= 0.0
  }

  lemma NonNegativeEngineFields(i: Inputs)
    requires NonNegative(i)
    ensures EngineNonNegative(i)
  {
    assert Get(i, X).value >= 0.0 && Get(i, Y).value >= 0.0;
    assert Get(i, A).value >= 0.0 && Get(i, B).value >= 0.0;
    assert Get(i, TokenFactor).value >= 0.0 && Get(i, TokenFactorAudio).value >= 0.0;
    assert Get(i, CIn).value >= 0.0 && Get(i, COut).value >= 0.0;
  }

  lemma MulNonNegative(u: real, v: real)
    requires u >= 0.0 && v >= 0.0
    ensures u * v >= 0.0
  {
  }

  lemma MulMonotone(k: real, u: real, v: real)
    requires k >= 0.0 && u <= v
    ensures k * u <= k * v
  {
  }

  /** Unrounded token counts and costs of a non-negative record are
      non-negative. */
  lemma {:induction false} ExactNonNegative(i: Inputs)
    requires EngineNonNegative(i)
    ensures var e := ExactResults(i);
      && e.inputTokens >= 0.0 && e.outputTokens >= 0.0 && e.totalTokens >= 0.0
      && e.inputCost >= 0.0 && e.outputCost >= 0.0 && e.totalCost >= 0.0
      && e.perMessageCost >= 0.0 && e.perPairCost >= 0.0
  {
    var e := ExactResults(i);
    var f := Factor(i);
    MulNonNegative(i.x, i.y);
    MulNonNegative(TotalMessages(i), 0.5);
    MulNonNegative(i.a, TotalPairs(i));
    MulNonNegative(i.b, TotalPairs(i));
    MulNonNegative(i.a * TotalPairs(i), f);
    MulNonNegative(i.b * TotalPairs(i), f);
    MulNonNegative(e.inputTokens, i.cIn);
    MulNonNegative(e.outputTokens, i.cOut);
  }

  /** With every input >= 0, every result field is >= 0. */
  lemma {:induction false} ResultsNonNegative(i: Inputs)
    requires EngineNonNegative(i)
    ensures var r := CalculateResults(i);
      && r.inputTokens >= 0.0 && r.outputTokens >= 0.0 && r.totalTokens >= 0.0
      && r.inputCost >= 0.0 && r.outputCost >= 0.0 && r.totalCost >= 0.0
      && r.perMessageCost >= 0.0 && r.perPairCost >= 0.0
  {
    ExactNonNegative(i);
  }

  /** The price of one user/AI pair: `a` words in and `b` words out. */
  function PairPrice(i: Inputs): real {
    Factor(i) * (i.a * i.cIn + i.b * i.cOut)
  }

  /** Half a pair's price for every message sent. */
  function ClosedTotal(i: Inputs): real {
    TotalMessages(i) * (PairPrice(i) / 2.0)
  }

  /** The total cost is the number of messages times half a pair's price,
      whatever the volumes are. */
  lemma {:induction false} TotalCostClosedForm(i: Inputs)
    ensures ExactResults(i).totalCost == ClosedTotal(i)
  {
    var e := ExactResults(i);
    assert e.inputCost == i.a * TotalPairs(i) * Factor(i) * i.cIn;
    assert e.outputCost == i.b * TotalPairs(i) * Factor(i) * i.cOut;
    assert TotalPairs(i) == TotalMessages(i) / 2.0;
  }

  /** With messages to spread over, a message costs half of
      `factor * (a * cIn + b * cOut)` and a pair costs all of it, whatever
      `x` and `y` are: one pair is `a` words in and `b` words out. */
  lemma {:induction false} PerUnitCosts(i: Inputs)
    requires TotalMessages(i) > 0.0
    ensures ExactResults(i).perPairCost == Factor(i) * (i.a * i.cIn + i.b * i.cOut)
    ensures ExactResults(i).perMessageCost == Factor(i) * (i.a * i.cIn + i.b * i.cOut) / 2.0
  {
    var e := ExactResults(i);
    var m := TotalMessages(i);
    var unit := PairPrice(i) / 2.0;
    TotalCostClosedForm(i);
    assert e.totalCost == m * unit;
    assert e.perMessageCost * m == m * unit;
    assert (e.perMessageCost - unit) * m == 0.0;
  }

  /** Unrounded: raising `cIn` changes `inputCost`, and through it
      `totalCost`, upwards only. */
  lemma {:induction false} ExactMonotoneInCIn(i: Inputs, c: real)
    requires EngineNonNegative(i)
    requires i.cIn <= c
    ensures var e, e' := ExactResults(i), ExactResults(i.(cIn := c));
      && e'.inputTokens == e.inputTokens
      && e'.outputTokens == e.outputTokens
      && e'.totalTokens == e.totalTokens
      && e'.outputCost == e.outputCost
      && e.inputCost <= e'.inputCost
      && e.totalCost <= e'.totalCost
  {
    var e, e' := ExactResults(i), ExactResults(i.(cIn := c));
    PriceKeepsTokens(i, c);
    ExactNonNegative(i);
    MulMonotone(e.inputTokens, i.cIn, c);
  }

  /** A new input price leaves the token counts and the output cost. */
  lemma {:induction false} PriceKeepsTokens(i: Inputs, c: real)
    ensures var e, e' := ExactResults(i), ExactResults(i.(cIn := c));
      && e'.inputTokens == e.inputTokens
      && e'.outputTokens == e.outputTokens
      && e'.totalTokens == e.totalTokens
      && e'.outputCost == e.outputCost
  {
    assert Factor(i.(cIn := c)) == Factor(i);
  }

  /** Raising `cIn` with everything else fixed leaves every token field
      as it was and never lowers `inputCost` or `totalCost`. */
  lemma {:induction false} MonotoneInCIn(i: Inputs, c: real)
    requires EngineNonNegative(i)
    requires i.cIn <= c
    ensures var r, r' := CalculateResults(i), CalculateResults(i.(cIn := c));
      && r'.inputTokens == r.inputTokens
      && r'.outputTokens == r.outputTokens
      && r'.totalTokens == r.totalTokens
      && r'.outputCost == r.outputCost
      && r.inputCost <= r'.inputCost
      && r.totalCost <= r'.totalCost
  {
    var e, e' := ExactResults(i), ExactResults(i.(cIn := c));
    ExactMonotoneInCIn(i, c);
    Round8Monotone(e.inputCost, e'.inputCost);
    Round8Monotone(e.totalCost, e'.totalCost);
  }

  /** Volume scaling: multiplying the number of conversations by `k`
      multiplies every token count and cost by `k` and leaves the
      per-message and per-pair costs unchanged. */
  lemma {:induction false} ScalesWithConversations(i: Inputs, k: real)
    requires k > 0.0
    ensures var e, e' := ExactResults(i), ExactResults(i.(y := k * i.y));
      && e'.inputTokens == k * e.inputTokens
      && e'.outputTokens == k * e.outputTokens
      && e'.totalCost == k * e.totalCost
      && e'.perMessageCost == e.perMessageCost
      && e'.perPairCost == e.perPairCost
  {
    ScaledTokens(i, k);
    ScaledTotalCost(i, k);
    ScaledPerUnitCosts(i, k);
  }

  /** The token counts of `ScalesWithConversations`. */
  lemma {:induction false} ScaledTokens(i: Inputs, k: real)
    ensures var e, e' := ExactResults(i), ExactResults(i.(y := k * i.y));
      && e'.inputTokens == k * e.inputTokens
      && e'.outputTokens == k * e.outputTokens
  {
    var j := i.(y := k * i.y);
    ScaledMessages(i, k);
    assert TotalPairs(j) == k * TotalPairs(i);
    ScaleMiddle(i.a, TotalPairs(i), Factor(i), k);
    ScaleMiddle(i.b, TotalPairs(i), Factor(i), k);
  }

  /** The total cost of `ScalesWithConversations`. */
  lemma {:induction false} ScaledTotalCost(i: Inputs, k: real)
    ensures ExactResults(i.(y := k * i.y)).totalCost == k * ExactResults(i).totalCost
  {
    TotalCostClosedForm(i);
    TotalCostClosedForm(i.(y := k * i.y));
    ClosedTotalScales(i, k);
  }

  /** The closed-form total scales with the number of conversations. */
  lemma ClosedTotalScales(i: Inputs, k: real)
    ensures ClosedTotal(i.(y := k * i.y)) == k * ClosedTotal(i)
  {
    var j := i.(y := k * i.y);
    ScaledMessages(i, k);
    assert PairPrice(j) == PairPrice(i);
    ScaleProduct(k, TotalMessages(i), PairPrice(i) / 2.0);
  }

  /** The per-message and per-pair costs of `ScalesWithConversations`. */
  lemma {:induction false} ScaledPerUnitCosts(i: Inputs, k: real)
    requires k > 0.0
    ensures var e, e' := ExactResults(i), ExactResults(i.(y := k * i.y));
      && e'.perMessageCost == e.perMessageCost
      && e'.perPairCost == e.perPairCost
  {
    var j := i.(y := k * i.y);
    ScaledMessages(i, k);
    if TotalMessages(i) > 0.0 {
      MulNonNegative(k, TotalMessages(i));
      PerUnitCosts(i);
      PerUnitCosts(j);
    } else {
      MulMonotone(k, TotalMessages(i), 0.0);
    }
  }

  /** Scaling the conversations scales the number of messages. */
  lemma ScaledMessages(i: Inputs, k: real)
    ensures TotalMessages(i.(y := k * i.y)) == k * TotalMessages(i)
  {
    ScaleProduct(k, i.y, i.x);
  }

  /** Scaling the middle factor of a product scales the product. */
  lemma ScaleMiddle(a: real, p: real, f: real, k: real)
    ensures a * (k * p) * f == k * (a * p * f)
  {
  }

  lemma ScaleProduct(k: real, t: real, c: real)
    ensures (k * t) * c == k * (t * c)
  {
  }
}

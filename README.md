# Options-analytics calculations, modelled in Dafny

This project models the exact-arithmetic part of the dashboard's calculation utilities. It covers:

- the payoff of a multi-leg option strategy over a range of spot prices;
- the moving average of a price series;
- the population standard deviation and the z-score;
- the Pearson correlation of two price series;
- the put-call ratio;
- the moneyness classification of an option.

All arithmetic is over Dafny's exact `real`. Each `reduce` becomes a left fold, defined recursively from the end of the sequence. Each thrown `Error` becomes an `Err` value of a `Result`. `Math.sqrt` is a parameter `sqrt: real -> real`. No property assumes anything about that parameter except at the single point where a lemma needs a true square root, and there it is a `requires`.

Modules:

- `Results`: the `Option` and `Result` values.
- `Squares`: facts about `Square(x) = x * x`.
- `Statistics`: sums, means, `movingAverage`, `standardDeviation`, `zScore`.
- `Pearson`: `correlation`, including a Cauchy-Schwarz proof that the coefficient lies in [-1, 1].
- `Strategy`: `strategyPayoff`.
- `Ratios`: `putCallRatio`, `moneyness`.

`movingAverage` and `correlation` are loops that update local accumulators, so they are methods with loop invariants. Each method is proved against a specification function: `WindowMeans` for the moving average, `SumsOf` with `Coefficient` for the correlation. The remaining operations are single expressions or `map`/`reduce` pipelines, so they are functions.

A leg's optional `strike` is tested for truthiness in the source. An absent strike and a strike of `0` therefore both make an option leg pay nothing; `HasStrike` captures exactly that. A stock leg adds its signed premium (`netPremium * quantity`) just as an option leg does.

## Model

| member | source | states |
|---|---|---|
| Statistics.MovingAverage | src/utils/calculations.ts:160-175 | fails with "Invalid window size" exactly when window <= 0 or window > length; otherwise returns length - window + 1 values, the j-th being the mean of data[j..j+window], which is exactly WindowMeans(data, window) |
| Statistics.WindowMeans | src/utils/calculations.ts:167-172 | reference definition: one mean per full window, length - window + 1 of them |
| Statistics.WindowMeansOfOne | src/utils/calculations.ts:160-175 | a window of 1 returns the series itself |
| Statistics.WindowMeansOfAll | src/utils/calculations.ts:160-175 | a window as long as the series returns the single overall mean |
| Statistics.WindowMeansBounded | src/utils/calculations.ts:167-172 | every moving-average value lies within the bounds of the data |
| Statistics.WindowMeansSlide | src/utils/calculations.ts:167-172 | moving the window by one changes its sum by the entering value minus the leaving one |
| Statistics.SumAppend | src/utils/calculations.ts:168-170 | Sum, the reduce-sum fold (also at lines 136-137 and 183), splits over a concatenation: the sum of the parts |
| Statistics.SumBounds | src/utils/calculations.ts:168-170 | a sum of n values in [lo, hi] lies in [n*lo, n*hi] |
| Statistics.SumConstant | src/utils/calculations.ts:183 | a sum of n copies of c is n*c |
| Statistics.SumShift | src/utils/calculations.ts:183 | adding c to every value adds n*c to the sum |
| Statistics.MeanBounds | src/utils/calculations.ts:183 | Mean, the fold's sum divided by the count (also at lines 136-137), lies between the bounds of the data |
| Statistics.MeanConstant | src/utils/calculations.ts:183 | the mean of a constant series is its value |
| Statistics.MeanShift | src/utils/calculations.ts:183 | shifting every value by c shifts the mean by c |
| Statistics.SquaredDeviations | src/utils/calculations.ts:185 | the sum of squared deviations is never negative |
| Statistics.SquaredDeviationsZero | src/utils/calculations.ts:185 | the squared deviations from m sum to zero exactly when every value equals m |
| Statistics.SquaredDeviationsShift | src/utils/calculations.ts:185 | shifting the data and the centre by the same c leaves the squared deviations unchanged |
| Statistics.PopulationVariance | src/utils/calculations.ts:183-185 | the variance (divided by n, not n-1) is never negative |
| Statistics.VarianceZeroIffConstant | src/utils/calculations.ts:183-185 | the variance is zero exactly when the series is constant |
| Statistics.VarianceShiftInvariant | src/utils/calculations.ts:183-185 | the variance is unchanged by shifting the series |
| Statistics.StandardDeviation | src/utils/calculations.ts:180-188 | an empty series gives 0; otherwise the result is sqrt of the population variance |
| Statistics.StandardDeviationIsRoot | src/utils/calculations.ts:180-188 | with a true square root, the standard deviation is non-negative, squares to the variance, and is zero exactly for a constant series |
| Statistics.ZScore | src/utils/calculations.ts:193-195 | a zero standard deviation gives 0; otherwise mean + z * stdDev recovers the value |
| Pearson.Correlation | src/utils/calculations.ts:130-155 | fails with "Series must have equal length and not be empty" exactly when the lengths differ or are zero; otherwise returns the Pearson coefficient of the centred sums |
| Pearson.Coefficient | src/utils/calculations.ts:152-154 | a zero denominator gives 0; otherwise the result times the denominator is the numerator |
| Pearson.CrossDeviationsSign | src/utils/calculations.ts:143-147 | when the two series deviate from their centres in the same direction at every index the numerator is non-negative, and in opposite directions non-positive |
| Pearson.SumsOf | src/utils/calculations.ts:135-150 | both sums of squared deviations are non-negative |
| Pearson.PrefixStep | src/utils/calculations.ts:143-150 | one loop iteration adds diff1*diff2, diff1^2 and diff2^2 to the three accumulators |
| Pearson.SquaresProductSwapped | src/utils/calculations.ts:152 | proof step for CorrelationSymmetric: the product under the root does not depend on the order of its two factors |
| Pearson.CrossDeviationsSymmetric | src/utils/calculations.ts:147 | CrossDeviations, the numerator accumulation, is symmetric in the two series |
| Pearson.CrossDeviationsFlat | src/utils/calculations.ts:147 | the cross-deviation sum is zero when one series equals its centre everywhere |
| Pearson.CrossDeviationsSelf | src/utils/calculations.ts:147-148 | a series' cross deviations with itself are its squared deviations |
| Pearson.SumsOfSymmetric | src/utils/calculations.ts:135-150 | swapping the series keeps the numerator and swaps the two squared sums |
| Pearson.CorrelationSymmetric | src/utils/calculations.ts:130-155 | correlation(a, b) == correlation(b, a) |
| Pearson.ConstantSeriesUncorrelated | src/utils/calculations.ts:152-154 | when either series is constant, the numerator and the product under the root are 0 and the result is 0 |
| Pearson.Residuals | src/utils/calculations.ts:143-150 | a sum of squares of p*diff1 - q*diff2 is never negative |
| Pearson.ExpandStep | src/utils/calculations.ts:147-149 | proof step for CauchySchwarz (algebra on plain reals): one step of the accumulators changes the quadratic form by one squared residual |
| Pearson.ResidualsExpand | src/utils/calculations.ts:143-150 | the residual sum equals the quadratic form in the three accumulators |
| Pearson.CauchySchwarzAlgebra | src/utils/calculations.ts:152-154 | proof step for CauchySchwarz (algebra on plain reals): a non-negative quadratic form with positive leading sum bounds numerator^2 by the product of the squared sums |
| Pearson.CauchySchwarz | src/utils/calculations.ts:143-152 | numerator^2 <= sum1Sq * sum2Sq |
| Pearson.CorrelationBounded | src/utils/calculations.ts:130-155 | with a true square root, the coefficient lies in [-1, 1] |
| Pearson.SelfCorrelation | src/utils/calculations.ts:130-155 | with a true square root, a non-constant series has correlation 1 with itself |
| Strategy.StrategyPayoff | src/utils/calculations.ts:200-230 | one payoff per spot price, each the sum of the leg payoffs at that spot |
| Strategy.LegPayoff | src/utils/calculations.ts:212-225 | an option leg without a (non-zero) strike pays 0; any other leg pays multiplier * quantity * (value at expiry - premium) |
| Strategy.FlipNegatesLeg | src/utils/calculations.ts:213-224 | selling instead of buying a leg negates its payoff |
| Strategy.TotalPayoff | src/utils/calculations.ts:211-228 | no legs pay 0, and a single leg pays exactly its own contribution |
| Strategy.TotalPayoffSign | src/utils/calculations.ts:211-228 | a strategy whose every leg gains at a spot gains there, and one whose every leg loses, loses |
| Strategy.TotalPayoffAppend | src/utils/calculations.ts:211-228 | the payoff of two sets of legs combined is the sum of their payoffs |
| Strategy.FlipNegatesTotal | src/utils/calculations.ts:211-228 | reversing every leg negates the strategy's payoff |
| Strategy.EmptyStrategyPaysNothing | src/utils/calculations.ts:210-229 | a strategy with no legs pays 0 at every spot |
| Strategy.StrategyPayoffAdditive | src/utils/calculations.ts:200-230 | at every spot, combining strategies adds their payoffs |
| Strategy.StrategyPayoffFlipped | src/utils/calculations.ts:200-230 | at every spot, reversing every leg negates the payoff |
| Strategy.OptionLegPiecewiseLinear | src/utils/calculations.ts:219-224 | an option leg pays a constant on one side of the strike and a line of slope ±multiplier*quantity on the other |
| Strategy.StockLegLinear | src/utils/calculations.ts:216-218 | a stock leg's payoff is linear in the spot with slope multiplier*quantity |
| Strategy.LongOptionLossBounded | src/utils/calculations.ts:219-224 | a bought option loses at most its premium times quantity |
| Strategy.LongStraddlePayoff | src/utils/calculations.ts:200-230 | a long straddle loses both premiums at the strike and gains quantity*distance minus them at strike ± distance |
| Ratios.PutCallRatio | src/utils/calculations.ts:235-237 | zero call volume gives 0; otherwise ratio * callVolume == putVolume |
| Ratios.PutCallRatioNonnegative | src/utils/calculations.ts:235-237 | non-negative volumes give a non-negative ratio |
| Ratios.Divide | src/utils/calculations.ts:247 | a non-zero strike gives a finite quotient that the strike scales back to the spot; a zero strike gives an infinity, or NaN exactly when the spot is also 0 |
| Ratios.Classify | src/utils/calculations.ts:242-258 | with a non-zero strike, a call is in the money exactly when spot/strike > 1.02 and out of it exactly when spot/strike < 0.98; a put is in the money exactly below 0.98 and out of it exactly above 1.02 |
| Ratios.BandsDisjoint | src/utils/calculations.ts:249-256 | no ratio, finite, infinite or NaN, is both above 1.02 and below 0.98, so the order of the two tests does not matter |
| Ratios.PutMirrorsCall | src/utils/calculations.ts:242-258 | for every spot and strike, a put is in the money exactly when the call is out of it, and conversely |
| Ratios.AtTheMoneyBand | src/utils/calculations.ts:247-257 | with a non-zero strike, either type is at the money exactly when 0.98 <= spot/strike <= 1.02 |
| Ratios.CallThresholds | src/utils/calculations.ts:249-252 | with a positive strike, a call is in the money exactly when spot > 1.02*strike, and out of it exactly when spot < 0.98*strike |
| Ratios.QuotientComparison | src/utils/calculations.ts:247-251 | proof step for CallThresholds (algebra on plain reals): comparing a ratio with a band is comparing the spot with the band times a positive strike |
| Ratios.ZeroStrike | src/utils/calculations.ts:247-252 | a zero strike makes a call in the money for a positive spot (+Infinity), out of it for a negative spot, and at the money for a zero spot (NaN fails both comparisons) |
| Ratios.ClassifyExamples | src/utils/calculations.ts:242-258 | at strike 100: a call or put at spot 100, 98 or 102 is ATM; a call at 103 is ITM and at 97 OTM; a put at 103 is OTM and at 97 ITM |

## Left out

- blackScholes, erf, calculateGreeks, impliedVolatility and historicalVolatility in the same file depend on exp, log, sqrt and the normal distribution, which exact reals cannot express; they are not part of this model.
- Floating-point rounding, overflow, NaN propagation and signed zero are not modelled. The arithmetic is exact. The one exception is the zero-strike division in `moneyness`, modelled by `Ratios.Quotient`.
- Division by zero in `putCallRatio`, `zScore` and `correlation` is guarded in the source, so it needs no floating-point model.
- `Math.sqrt` is an uninterpreted parameter. Lemmas that need a true root require it at the one point they use.
- Pearson.Correlation: the correlation of series containing NaN or Infinity is not modelled.
- Statistics.MovingAverage: a non-integer window is not modelled. The window is an `int`, while JavaScript's `slice` would truncate a fractional bound.
- Statistics.StandardDeviation: `Math.pow(x, 2)` is modelled as the exact square `x * x`.
- Strategy.StrategyPayoff: JavaScript's dynamic typing of the leg fields is replaced by the `Leg` datatype. An instrument type other than call, put or stock cannot be expressed.
- The moneyness result is the `Moneyness` datatype rather than the strings "ITM", "ATM" and "OTM"; the three constructors correspond one to one.
- The data simulation, React hooks, components and type declarations are not part of this model.

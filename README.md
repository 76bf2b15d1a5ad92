# Freight calculator: trip profit before and after the diesel adjustment

A model of the calculation core of a one-screen freight calculator. A small
cargo operator enters four numbers: the diesel budget of a trip before the
price change, the old and new freight rate per 50 kg sack, and the number of
sacks. The screen then derives twelve statistics from them and two fixed
official diesel prices, 3.72 and 9.80 Bs per litre. They are the litres
bought, the new diesel cost and its increase, old and new revenue and profit,
the net difference, the profit change in percent, the break-even freight rate
and the applied rate increase. It then shows a gain or a loss depending on
the sign of the net difference.

- `freight_stats.dfy`, module `FreightStats`: the constants, the default
  inputs, the `Inputs` and `Stats` records, and `ComputeStats`, the
  derivation. It has one binding per statistic and keeps the source's three
  guards as written. The lemmas relate several computations, chiefly the
  break-even rate and the net difference.
- `freight_display.dfy`, module `FreightDisplay`: the gain/loss branch the
  cards and the banner select, and the percentage the banner prints.

Arithmetic is over Dafny's exact `real`. The only unguarded divisor in the
source is the constant 3.72, so no division by zero can produce Infinity or
NaN. Overflow and underflow of the source's doubles can, and are not
modelled (see "## Left out"). The zero-price edge case that a
price-parametric design would have cannot arise with the constants as
written.

## Model

| member | source | states |
|---|---|---|
| `FreightStats.PercentChange` | src/App.jsx:29-35 | profitChangePercent and fleteIncreasePercent share this guarded relative change. It is 0 for a zero base. Otherwise the result times the base is 100 times the change. For a positive base it is non-negative exactly when the value did not fall. |
| `FreightStats.ComputeStats` | src/App.jsx:16-51 | Litres times 3.72 give back the budget. The new diesel cost is the budget repriced at 9.80. The fuel increase is the budget times the price rise over 3.72, so it is non-negative exactly when the budget is. The fuel increase percent is the constant 15200/93, whatever the inputs. The revenue change is load times rate change. The net difference is the revenue change minus the fuel increase. The profit change percent is 0 when the old profit is 0, and otherwise 100 × net difference / old profit. The break-even rate is 0 for a load ≤ 0 (negative loads too). For a positive load, break-even rate × load minus new diesel cost is the old profit. The rate increase percent is 0 for a zero old rate, whatever the new rate, and otherwise the relative rate change. |
| `FreightStats.WithNewRate` | src/App.jsx:131-132 | Typing a new freight rate replaces that input and leaves the other three unchanged. |
| `FreightStats.BreakEvenIgnoresNewRate` | src/App.jsx:25-32 | Changing the new rate moves neither the break-even rate nor the old profit. |
| `FreightStats.NetDifferenceIsRateGap` | src/App.jsx:22-32 | For a positive load, the net difference is load × (new rate − break-even rate). |
| `FreightStats.BreakEvenRestoresProfit` | src/App.jsx:31-32 | With the break-even rate as the new rate, the new profit equals the old profit and the net difference is 0. This is the "keep the previous profit" price shown at line 231. |
| `FreightStats.BreakEvenIsUnique` | src/App.jsx:22-32 | For a positive load, a new rate gives a zero net difference if and only if it equals the break-even rate. |
| `FreightStats.NetDifferenceSign` | src/App.jsx:22-32 | For a positive load, the net difference is ≥ 0 (resp. > 0) if and only if the new rate is ≥ (resp. >) the break-even rate. |
| `FreightStats.DefaultScenario` | src/App.jsx:10-28 | For the default inputs (410, 11.00, 14.74, 400): litres = 10250/93 and new diesel cost = 100450/93. Revenue is 4400 before and 5896 after. The old profit is 3990. The net difference is 76808/93 (≈ 825.89), which is positive. |
| `FreightDisplay.VerdictOf` | src/App.jsx:193-221 | At lines 193, 204, 206, 215, 218 and 221 the gain branch is taken exactly when the net difference is not negative, so a zero difference counts as a gain; the loss branch exactly when it is negative. |
| `FreightDisplay.Abs` | src/App.jsx:223 | `Math.abs`: the result is non-negative and is either the argument or its negation. |
| `FreightDisplay.GainIffRateReachesBreakEven` | src/App.jsx:193 | For a positive load, the gain branch (netDifference ≥ 0) is shown if and only if the new rate reaches the break-even rate. |
| `FreightDisplay.BreakEvenShowsGain` | src/App.jsx:215 | With the break-even rate as the new rate, the gain branch is shown. |
| `FreightDisplay.DefaultShowsGain` | src/App.jsx:215 | The screen opens on the gain branch. |
| `FreightDisplay.UnchangedRateShowsLoss` | src/App.jsx:221 | A 500 Bs budget, a rate of 11 both before and after, and 100 sacks show the loss branch. |
| `FreightDisplay.BannerPercentAsWritten` | src/App.jsx:221-224 | The banner percentage as the code computes it. In the loss branch it is non-negative. |
| `FreightDisplay.GainBannerNegativeIff` | src/App.jsx:221-222 | In the gain branch, the as-written percentage is negative if and only if the net difference is positive and the old profit is negative. |
| `FreightDisplay.GainBannerNegativeExample` | src/App.jsx:221-222 | The inputs (410, 11, 200, 10) show the gain branch with a negative percentage. |
| `FreightDisplay.BannerPercent` | src/App.jsx:221-224 | The corrected banner percentage is never negative. In the loss branch it agrees with the code. |
| `FreightDisplay.BannerPercentIsRelativeChange` | src/App.jsx:25-29 | The corrected percentage is 0 when there was no old profit. Otherwise it is 100 × \|net difference\| / \|old profit\|. |
| `FreightDisplay.BannerPercentMatchesOtherwise` | src/App.jsx:221-224 | Outside the trips named in the finding below, the corrected and as-written percentages are equal. |

## Left out

- Layout, styling classes, icons and the React component structure: presentation only.
- Input parsing: the `Number(...)` coercion in the input handlers is the JavaScript runtime's string parsing. Inputs are modelled as already-parsed reals.
- Memoisation of the derivation keyed on the four inputs: a performance detail. A Dafny function is deterministic, so computing twice gives the same statistics.
- Number formatting (`toLocaleString('es-BO', …)`, `toFixed`): foreign library calls. The model reasons about the numbers shown, not their text. This includes the "+" prefix before the net difference and the unconditional "+" before the fuel increase. `ComputeStats` states when the fuel increase is non-negative (exactly when the budget is).
- IEEE-754 doubles: rounding, overflow to Infinity, underflow and NaN are not modelled. All arithmetic is exact over `real`. In the source, large inputs (load and both rates around 1e200) make both revenues and profits Infinity, so `netDifference` is Infinity − Infinity = NaN. Since `NaN >= 0` is false, lines 193, 215 and 221 then show the loss branch, where the model computes an exact difference (0 in that example) and `VerdictOf` shows a gain. A tiny non-zero old profit (around 5e-324) likewise makes the division at line 29 overflow to Infinity.
- VerdictOf: decides on an exact real difference, so it cannot show the loss branch that a NaN `netDifference` selects in the source, for the reason in the line above.

## Findings

| source | as written | input that shows it | evidently intended | confidence | as-written member | corrected member |
|---|---|---|---|---|---|---|
| src/App.jsx:221-223 | The gain banner prints a literal "+" and then `profitChangePercent`. This value is net difference / old profit × 100, so it is negative when the old profit was negative. | budget 410, old rate 11, new rate 200, 10 sacks: old profit −300, net difference ≈ 1219.89, banner "Ganancia … +-406.6%" | A non-negative magnitude after the "+", i.e. the absolute value the loss branch already prints | medium, not executed | `FreightDisplay.BannerPercentAsWritten` (`GainBannerNegativeIff`, `GainBannerNegativeExample`) | `FreightDisplay.BannerPercent` (`BannerPercentIsRelativeChange`, `BannerPercentMatchesOtherwise`) |

The derivation itself (`ComputeStats`) keeps `profitChangePercent` exactly as the source computes it. The correction applies only to the banner's percentage.

# conversionmoneda — payment-option comparison, modelled in Dafny

`app.py` is a Streamlit page for a shopper in Chile who pays in Chilean pesos
(CLP) and wants the cost in Argentine pesos (ARS). Its logic does three things,
and this project models all three:

- **The option list** (app.py:68-92). There are five guarded blocks, in a fixed
  order: CLP pre-exchanged at a casa de cambio, USD, ARS, Débito, Crédito. Each
  block appends one row when its checkbox is ticked and every rate it reads is
  truthy, that is neither `None` nor `0`. The row holds the label, the rates it
  quotes, and `round(x, 2)` of the ARS cost. The cost is either
  `price / clp_per_ars` or `price / clp_per_usd * ars_per_usd`.
  `PaymentOptions.BuildOptions` is the imperative method: one `Add…` method per
  block, appending to a sequence. It is proved equal to the declarative function
  `PaymentOptions.Options`. That function selects, in the declared order, the
  channels whose box is ticked and whose conversion `Path` can be resolved. The lemmas about `Options`
  say:
  - which rows appear;
  - what each costs;
  - the order and length of the list;
  - what zeroing a rate does.
- **Sort and recommend** (app.py:95-103). The list is sorted by the rounded
  cost, and row 0 is recommended. An empty list shows only the informational
  message. `Ranking.Compare` models this. Its contract promises only a sorted
  rearrangement, because pandas' `sort_values` is not part of this model and
  does not guarantee the order of tied rows. The insertion sort `Ranking.SortByCost` stands in for it.
- **Rate-text clean-up** (app.py:58). The Banco Central dollar rate is stripped
  of whitespace, then `$` and `.` are deleted, then `,` becomes `.`. This is
  `RateText.Normalise`, built from `Strip`, `Remove` and `Swap`.

Rates typed in by the user are plain reals, because `number_input` always
yields a number. Fetched rates are `Option<real>`, because a failed fetch gives
`None`. Amounts are unbounded reals. `round(x, 2)` is round-half-even to
hundredths (`Rounding.Round2`).

Facts about app.py that the model keeps:
- Every cost divides the CLP price by a "CLP per X" rate, and the USD-based
  costs then multiply by an "ARS per USD" rate (app.py:72-91).
- Nothing is raised for a zero price or a zero rate: a zero or missing rate
  only makes its block's guard false, so its option is left out
  (app.py:71-89).
- The table is sorted on the "Costo en ARS" column, which already holds the
  rounded cost (app.py:73-97).
- `sort_values("Costo en ARS")` is called with no tie rule, so the order of
  rows of equal cost, and so the pick among them, is not guaranteed
  (app.py:97-100).
- No cost is multiplied by any card markup; Crédito differs from Débito only
  in the "ARS per USD" rate it reads (app.py:84-92).

## Model

| member | source | states |
|---|---|---|
| Rounding.RoundHalfEvenSpec | app.py:73 | `round` to a whole number lands within one half of its argument, and on an exact half it picks the even neighbour |
| Rounding.RoundHalfEvenUnique | app.py:73 | those two properties pin the rounded value down uniquely |
| Rounding.Round2Near | app.py:73 | `round(x, 2)` is a whole number of hundredths within 0.005 of `x` |
| Rounding.Round2OfHundredths | app.py:73 | a value already in hundredths is left unchanged by `round(x, 2)` |
| Rounding.Round2Idempotent | app.py:73 | rounding twice to two places equals rounding once |
| Rounding.RoundHalfEvenMonotone | app.py:73 | rounding to a whole number never reverses the order of two values |
| Rounding.Round2Monotone | app.py:73 | `round(x, 2)` never reverses the order of two costs |
| Rounding.Round2HalfWayCases | app.py:73 | halves go to the even hundredth: 0.125 to 0.12, 0.135 to 0.14, -0.125 to -0.12 |
| PaymentOptions.LabelsDistinct | app.py:73-92 | two channels show the same label exactly when they are the same channel |
| PaymentOptions.ResolvableIff | app.py:71-89 | a conversion path can be evaluated exactly when every rate it reads is present and non-zero |
| PaymentOptions.BuildOptions | app.py:68-92 | starting from an empty list, the five guarded appends produce exactly `Options`: the qualifying channels' rows in declared order |
| PaymentOptions.AddClpCasaDeCambio | app.py:71-73 | the CLP block appends the channel's row (rate quoted, `round(price / clp_ars_casadecambio, 2)`) exactly when its box is ticked and the rate is truthy; otherwise it leaves the list alone |
| PaymentOptions.AddUsd | app.py:75-78 | the USD block appends `round(price / clp_usd_comercio * usd_ars_oficial, 2)` exactly when its box is ticked and both rates are truthy; otherwise it leaves the list alone |
| PaymentOptions.AddArs | app.py:80-82 | the ARS block appends `round(price / clp_ars_comercio, 2)` exactly when its box is ticked and the rate is truthy; otherwise it leaves the list alone |
| PaymentOptions.AddDebito | app.py:84-87 | the Débito block appends `round(price / clp_usd_oficial * usd_ars_oficial, 2)` exactly when its box is ticked and both rates are truthy; otherwise it leaves the list alone |
| PaymentOptions.AddCredito | app.py:89-92 | the Crédito block appends `round(price / clp_usd_oficial * usd_ars_tarjeta, 2)` exactly when its box is ticked and both rates are truthy; otherwise it leaves the list alone |
| PaymentOptions.SelectSnoc | app.py:69-92 | one more channel at the end of the order adds one more guarded append at the end of the list |
| PaymentOptions.SelectSplit | app.py:69-92 | the list for a channel order is the list for all but the last channel followed by the last channel's row, if it has one |
| PaymentOptions.OptionsUnfold | app.py:69-92 | the option list is the five guarded appends, CLP, USD, ARS, Débito, Crédito, applied in turn to the empty list |
| PaymentOptions.SelectSound | app.py:69-92 | every listed row belongs to a qualifying channel of the order and is exactly that channel's row |
| PaymentOptions.SelectComplete | app.py:69-92 | every qualifying channel of the order has a row in the list |
| PaymentOptions.OptionListedIff | app.py:71-89 | a channel is listed if and only if its box is ticked and every rate its formula reads is present and non-zero |
| PaymentOptions.OptionCost | app.py:71-92 | each listed row's cost and quoted rates, channel by channel: CLP `round(price / clp_ars_casadecambio, 2)`, USD `round(price / clp_usd_comercio * usd_ars_oficial, 2)`, ARS `round(price / clp_ars_comercio, 2)`, Débito `round(price / clp_usd_oficial * usd_ars_oficial, 2)`, Crédito `round(price / clp_usd_oficial * usd_ars_tarjeta, 2)`, with each divisor non-zero |
| PaymentOptions.OptionCostNearExact | app.py:72-92 | every listed cost is a whole number of hundredths within 0.005 of the exact conversion |
| PaymentOptions.SelectOrdered | app.py:69-92 | when the channel order has strictly rising ranks, so does the list it selects |
| PaymentOptions.OrderedLength | app.py:69-92 | a list with strictly rising channel ranks is no longer than the last rank plus one |
| PaymentOptions.OptionsInDeclaredOrder | app.py:69-92 | before sorting, the rows follow the order CLP, USD, ARS, Débito, Crédito, no label repeats, and there are at most five rows |
| PaymentOptions.PartUnchangedExcept | app.py:71-92 | a channel whose formula does not read a rate gives the same row, or none, whatever that rate is |
| PaymentOptions.SelectDropsUsers | app.py:71-92 | making one rate falsy removes exactly the rows whose formula reads it, for any channel order |
| PaymentOptions.DroppingRateDropsItsUsers | app.py:71-92 | zeroing or losing one rate removes exactly the options that read it and leaves every other row, cost included, unchanged |
| PaymentOptions.SelectBlind | app.py:69-92 | a rate no channel reads does not affect the list |
| PaymentOptions.UnreadRatesIgnored | app.py:21-22 | the casa-de-cambio USD/ARS and CLP/USD inputs change no option |
| Ranking.Insert | app.py:97 | inserting a row into a cost-sorted table keeps it sorted and adds exactly that row |
| Ranking.SortByCost | app.py:97 | the sorted table holds the same rows, each as often, in non-decreasing cost order |
| Ranking.MinCost | app.py:100-101 | the reference minimum: a cost some row has, and no row costs less |
| Ranking.Compare | app.py:95-103 | nothing is recommended exactly when the option list is empty; otherwise the table is a cost-sorted rearrangement of the list, and the recommendation is its row 0, one of the options, at the least rounded cost |
| Ranking.SortedHeadIsMin | app.py:100-101 | row 0 of any cost-sorted rearrangement is one of the rows and carries the least cost |
| Ranking.RecommendedNearlyCheapest | app.py:97-101 | because the ranking uses rounded costs, the recommended option's exact cost is at most 0.01 ARS above any other option's |
| Ranking.TiesLeaveTheRecommendationOpen | app.py:97-100 | two rows of equal rounded cost may be sorted in either order, so a tie does not fix which one is recommended |
| RateText.StripLeftSpec | app.py:58 | the left strip leaves a suffix that does not start with whitespace and removes only whitespace |
| RateText.StripRightSpec | app.py:58 | the right strip leaves a prefix that does not end in whitespace and removes only whitespace |
| RateText.StripKeepsText | app.py:58 | `strip()` leaves text with non-whitespace ends and keeps every other character as often as before |
| RateText.RemoveCounts | app.py:58 | `replace(x, "")` deletes every `x` and keeps every other character as often as before |
| RateText.RemoveAppend | app.py:58 | `replace(x, "")` works piece by piece, so the kept characters stay in order |
| RateText.RemoveAbsent | app.py:58 | `replace(x, "")` leaves a text without `x` unchanged |
| RateText.SwapAt | app.py:58 | `replace(",", ".")` turns each `,` into `.` in place, keeps the length and changes nothing else |
| RateText.SwapCounts | app.py:58 | after the swap no `,` is left, the `.` count grows by the `,` count, and other counts stay |
| RateText.SwapAppend | app.py:58 | the swap works piece by piece |
| RateText.SwapAbsent | app.py:58 | the swap leaves a text without `,` unchanged |
| RateText.NormaliseCounts | app.py:58 | the cleaned text has no `$` and no `,`; its `.` count equals the `,` count of the raw text; every other non-whitespace character keeps its count |
| RateText.StripUntrimmed | app.py:58 | text that neither starts nor ends with whitespace is left alone by `strip()` |
| RateText.DropThousandsPoint | app.py:58 | deleting `.` removes the thousands point and keeps the digit groups in order |
| RateText.DecimalCommaToPoint | app.py:58 | the decimal comma becomes a point in place |
| RateText.ThousandsAndDecimalComma | app.py:58 | for any digit groups `a`, `b`, `c`, the text `a.b,c` comes out as `ab.c`, as `1.234,56` becomes `1234.56` |

## Left out

- The Streamlit page is not modelled: titles, sidebar widgets, `st.dataframe`, `st.success`, `st.info` and `@st.cache_data` (app.py:2-32, 98-103). The checkbox and number inputs are parameters. `Compare`'s outcome stands for which message is shown.
- `number_input(min_value=0.0)` keeps typed values non-negative (app.py:14-23). The model accepts any real, and no proved property depends on the sign.
- The HTTP requests, the BeautifulSoup lookup and `float(...)` inside `try/except` are not modelled (app.py:37-61). A fetched rate is `Some(v)` or `None`. `RateText.Normalise` models only the text clean-up before `float`.
- Binary floating point is not modelled: amounts are reals, and `round` is exact round-half-even to hundredths.
- The pandas DataFrame is a sequence of `Row` values. The provenance f-strings (app.py:73-92) are not formatted: a row keeps the rate values it quotes (`Quote`), not their text.
- Ranking.SortByCost: pandas' `sort_values` is not part of this model. The insertion sort stands in for it, and `Compare` promises only some cost-sorted rearrangement. The order of tied rows, and so the pick among tied options, is left open.
- Ranking.Compare: the success message's text, which embeds the float cost, is not modelled. The outcome carries the recommended row itself.

# Cuttable ROI calculator — verified model

This project models the core of a single-screen ROI estimator for advertising
creative production. The user picks advertising channels with five checkboxes
and enters a campaign count and a variation count. A fixed chain of formulas
then gives:

- the number of creative variations and of creative formats (resizes per
  channel);
- the labour hours and their cost at 50 per hour;
- the hours and money saved by the product against a flat 7500 platform fee;
- the minutes per asset now and with the product.

Modules:

- `Channels` (`channels.dfy`): the five channels as a datatype, the weight
  table as a `match` (Display 5, Meta 4, TikTok 3, YouTube 3, Digital OOH 3),
  and the recursive per-campaign sum over the selected list.
- `Metrics` (`metrics.dfy`): `calculate_metrics` as a pure function. Integer
  quantities are `int`, as Python's integers are unbounded. The quantities
  Python computes with true division are exact `real`s. The two per-asset
  divisions fail when the format count is zero, where Python raises
  `ZeroDivisionError`; the model returns `Err(ZeroDivision)` there and its
  contract says exactly when that happens.
- `App` (`app.dfy`): the glue in `main` that guarantees the division is
  safe. `BuildChannels` is an imperative method: it starts from an empty list
  and makes five guarded appends (`AppendIfTicked`), as the source does. `Render` is one pass of
  the page: a warning when the list is empty, otherwise the results and the
  percentage shown beside the new minutes per asset.

The function itself does not validate its arguments. It takes a list,
duplicates included, and any integers, and raises on an empty list or a zero
count; the model does the same (see "## Left out" for the one further error
Python can raise, on counts too large for a float).

## Model

| member | source | states |
|---|---|---|
| `Channels.FormatsPerChannel` | app.py:9-15 | every channel needs 3 to 5 formats; 5 exactly for Display, 4 exactly for Meta |
| `Channels.FormatsPerCampaign` | app.py:18 | the summed weight of a list lies between 3 and 5 per entry, and is zero exactly for the empty list |
| `Channels.FormatsPerCampaignByCount` | app.py:18 | the sum equals each channel's weight times its number of occurrences, summed over the five channels |
| `Channels.FormatsPerCampaignPermutation` | app.py:18 | reordering the channel list does not change the sum |
| `Channels.FormatsPerCampaignAppend` | app.py:18 | the sum over a concatenation is the sum of the sums |
| `Channels.FormatsPerCampaignExamples` | app.py:9-19 | Meta alone gives 4; Display with Meta gives 9 in either order |
| `Metrics.CalculateMetrics` | app.py:5-53 | the calculation fails (division by zero) exactly when the list is empty or a count is zero; otherwise it returns the nine figures |
| `Metrics.CountsClosedForm` | app.py:7-37 | with n = campaigns * variations and w = summed weight: variations n, formats n*w, hours n*(24+4w), cost n*(1200+200w), money saved = cost - 7500 |
| `Metrics.SolutionHoursClosedForm` | app.py:34-35 | hours with the solution are formats / 30 (2 minutes each); hours saved are total hours minus that |
| `Metrics.MinutesClosedForm` | app.py:40-41 | current minutes per asset are 240 + 1440/w; new minutes per asset are 240 / (n*w) |
| `Metrics.SafeDivision` | app.py:40-41 | for a non-empty list and counts of at least 1 the calculation succeeds, with at least 3 formats per entry per variation, so at least 3 |
| `Metrics.Monotone` | app.py:7-31 | for fixed channels, raising campaigns or variations never lowers variations, formats, hours or cost |
| `Metrics.CurrentMinutesIndependentOfCounts` | app.py:40 | the current minutes per asset are the same for any two non-zero count pairs over the same list |
| `Metrics.CurrentSlowerThanNew` | app.py:40-41 | on valid inputs, current minutes per asset exceed new minutes per asset, which are positive |
| `Metrics.MoneySavedCanBeNegative` | app.py:36-37 | one TikTok campaign with one variation gives money saved of -5700 |
| `Metrics.MetaScenario` | app.py:5-53 | Meta, 2 campaigns, 3 variations gives 6, 24, 240, 12000, 239.2, 4500, 600, 10, 0.8 |
| `Metrics.DisplayMetaScenario` | app.py:5-31 | Display and Meta, 1 campaign, 1 variation gives 1 variation, 9 formats, 60 hours, cost 3000 |
| `App.BuildChannels` | app.py:90-95 | the list holds exactly the ticked channels, with no repeats, in the order Meta, TikTok, YouTube, Digital OOH, Display; its length is the number of ticked boxes, so it is empty iff none is ticked |
| `App.AppendIfTicked` | app.py:91-95 | one guarded append: if the list before it holds exactly the ticked channels ranked below the channel, in append order, the list after it holds exactly the ticked channels ranked up to and including it, in append order, with its length the number of those |
| `App.AppendOrderDeterminedByMembers` | app.py:90-95 | two lists in that order with the same members are equal, so the contract of `BuildChannels` fixes its result |
| `App.OccursOnce` | app.py:90-95 | a list in append order holds each member exactly once |
| `App.TickedFormats` | app.py:90-95 | the summed weight of the built list is the weight of the ticked boxes |
| `App.SavingsPercent` | app.py:155 | the percentage times the current minutes is the difference of current and new minutes times 100 (defined when current minutes are non-zero); it lies strictly between 0 and 100 when current minutes exceed new ones, which are positive |
| `App.SavingsPercentBounds` | app.py:155 | on valid inputs the percentage's divisor is non-zero, the percentage is 100 - 400 / total hours, and it lies strictly between 0 and 100 |
| `App.Render` | app.py:111-166 | a warning exactly when no box is ticked; otherwise results computed from the built list without error, with formats = campaigns * variations * ticked weight, current minutes above new minutes, and the percentage equal to `SavingsPercent` of the metrics, strictly between 0 and 100 |

## Left out

- Streamlit rendering (title, sidebar, columns, metrics, the warning text), the
  pandas table and the plotly chart (app.py:55-88, 114-163): presentation calls
  into libraries, with no logic of their own.
- Number formatting of the shown figures (app.py:133-155): display only.
- IEEE-754 floating point: `2/60`, the hours with the solution, the hours saved,
  both per-asset divisions and the percentage are exact rationals here, so
  float rounding is not captured.
- The widgets' clamping of both counts to at least 1 (app.py:99-109) belongs to
  the input widget; `Render` takes it as a precondition.
- The lookup failure for an unknown channel name (app.py:18): the closed
  `Channel` datatype rules it out.
- Metrics.CalculateMetrics: when the format count is zero Python raises only at
  app.py:40, after computing the earlier figures; the model's error carries none
  of them, since Python returns none either.
  Python also raises OverflowError at app.py:34-35 when the format count or the
  hours are too large to convert to a float (above about 1.8e308, for example
  campaigns = 10**308); the model returns Ok there, since its figures are exact
  integers and rationals. The widgets keep the counts far below that size.

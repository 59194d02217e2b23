# Carbon footprint charts: label layout and bar values

This project models the computational core of the carbon footprint plotting
scripts. Two parts are covered.

**Pie-chart labels.** Each pie script computes a wedge's percentage of its
person's total and decides how the wedge is labelled:

- not at all;
- inside the wedge;
- outside the wedge, with a dashed leader line.

The thresholds, radii and special cases of each script are modelled file by
file:

- `DietPie` (diet_consumption_pie_chart.py) also spreads its outside labels
  apart with `adjust_label_positions` (`LabelSpreading`).
- `WaterPie` (main.py) has hard-coded overrides for Connor's 'Cleaning Dishes'
  and 'Washing Machine' wedges.
- `TransportPie` (transport.py) filters out modes with no distance.
- `EnergyPieNoAgnel` (energy_usage_no_agnel.py) labels zero values outside.
- `EnergyPie` (energy_usage.py) draws a grey placeholder pie when a value is
  missing.

A wedge loop is modelled as the sequence of drawing calls it makes (`Mark`):
texts, leader lines and the placeholder disc. Each loop is a method proved to
make exactly the calls of a specification function. That function is built
from a per-wedge decision (`Placement`) whose contract states the script's
rule.

**Bar values.** `plot_bars` of the three bar-chart scripts has three more
pieces of logic (`BarValues`, `DietBars`, `ResidentialBars`, `TransportBars`):

- missing values become zero-height bars labelled 'N/A';
- the y-axis limit is derived from the largest present value, with a default;
- the diet table is converted in place from kilograms to tonnes.

Coordinates and percentages are real numbers. A wedge carries its angles and
the unit direction of its mid-angle, which the scripts take from matplotlib
and floating-point trigonometry. A label records the number it shows, not its
formatted text.

Where the code and the written description of the scripts differ, the model
follows the code:

- The diet script places inside labels at the fixed radius 0.6. Its
  `pct_distance` parameter is not used for them.
- Every script divides by the pie's total without a guard. An all-zero pie is
  therefore not an empty plot: the model requires a positive total instead.
  transport.py is the exception, since filtering leaves only positive values.

## Model

| member | source | states |
|---|---|---|
| Geometry.Polar | diet_consumption_pie_chart.py:5-10 | the label anchor lies on the line of the wedge's mid-angle; for a unit direction it is at signed distance `distance` along it, so at radius \|distance\| |
| Annotations.Autopct | main.py:16-20 | custom_autopct gives no text exactly when pct < min_pct or the wedge spans less than 15 degrees, and the percentage otherwise |
| Annotations.RenderCounts | main.py:88-126 | drawing a wedge loop makes one text per labelled wedge and one leader line per outside label, so no wedge is labelled twice |
| Annotations.LabelsOnlyOnNonZero | main.py:81-83 | when zero-valued wedges are skipped, there are no more labels than non-zero values |
| Annotations.EveryWedgeLabelled | transport.py:86-100 | when no wedge is skipped, every wedge has exactly one label |
| Percentages.Pct | diet_consumption_pie_chart.py:69 | a wedge's percentage is 0 exactly when its value is 0, and negative exactly when its value is |
| Percentages.PctsSumTo100 | diet_consumption_pie_chart.py:61-69 | the percentages of one pie add up to 100 |
| Percentages.SumOfPositives | transport.py:85 | a non-empty list of positive values has a positive total, so the percentage is defined |
| LabelSpreading.SortBy | diet_consumption_pie_chart.py:15 | the stable sort by a key keeps the length of the list |
| LabelSpreading.SortByPermutes | diet_consumption_pie_chart.py:15 | sorting is a permutation of the positions |
| LabelSpreading.SortBySorted | diet_consumption_pie_chart.py:15 | the sorted list is in ascending key order |
| LabelSpreading.SortByStable | diet_consumption_pie_chart.py:15 | entries with equal keys keep their relative order |
| LabelSpreading.SortBySortedIsIdentity | diet_consumption_pie_chart.py:15 | a list already in key order is left as it is |
| LabelSpreading.SortByMapPermutes | diet_consumption_pie_chart.py:15 | any projection of the sorted list is a permutation of the same projection of the input |
| LabelSpreading.Nudge | diet_consumption_pie_chart.py:17-22 | one step of the pass keeps x and never lowers y; afterwards the label is at least y_spacing from its predecessor; it is either unchanged or exactly y_spacing above the predecessor |
| LabelSpreading.SpreadBounds | diet_consumption_pie_chart.py:16-22 | the pass keeps the first label and every x, never lowers a y, and leaves neighbours at least y_spacing apart in absolute value |
| LabelSpreading.SpreadStep | diet_consumption_pie_chart.py:20-22 | each later entry is its input lifted to the adjusted predecessor's y plus y_spacing when the absolute gap is below y_spacing, and its input otherwise |
| LabelSpreading.SpreadKeepsSpaced | diet_consumption_pie_chart.py:16-22 | labels that are already y_spacing apart are not moved |
| LabelSpreading.SpreadIdempotent | diet_consumption_pie_chart.py:16-22 | running the pass twice gives the same list as running it once |
| LabelSpreading.AdjustedKeepsLabels | diet_consumption_pie_chart.py:13-23 | the adjusted list has the input's length; every entry has the x of an input label and a y no lower than that label's |
| LabelSpreading.AdjustedLowestStays | diet_consumption_pie_chart.py:15-22 | the first adjusted entry is the lowest input label, unmoved |
| LabelSpreading.AdjustedNeighboursApart | diet_consumption_pie_chart.py:16-22 | with y_spacing >= 0, neighbours in the adjusted list are at least y_spacing apart in absolute value |
| LabelSpreading.AdjustedKeepsSpacedList | diet_consumption_pie_chart.py:15-22 | a list already sorted by y whose gaps are at least y_spacing comes back unchanged |
| LabelSpreading.TwoCloseLabels | diet_consumption_pie_chart.py:13-23 | labels at y 0.41 and 0.40 with y_spacing 0.2 end at 0.40 and 0.60 |
| LabelSpreading.CrowdedRunFallsBack | diet_consumption_pie_chart.py:20 | labels at 0.40, 0.41, 0.41, 0.41 end at 0.40, 0.60, 0.80, 0.41: the last is out of order and overlaps the first |
| LabelSpreading.SpreadUpGaps | diet_consumption_pie_chart.py:16-22 | the corrected pass keeps every x, never lowers a y, and leaves every label at least y_spacing above its predecessor |
| LabelSpreading.SpreadUpSeparates | diet_consumption_pie_chart.py:16-22 | with the corrected pass, any two labels end in ascending order and at least y_spacing apart |
| LabelSpreading.CrowdedRunClimbs | diet_consumption_pie_chart.py:16-22 | the crowded run ends at 0.40, 0.60, 0.80, 1.00 under the corrected pass |
| LabelSpreading.InsertIntoPrefix | diet_consumption_pie_chart.py:15 | one insertion step in place: the first i+1 entries become the stable insertion of entry i into the sorted first i; later entries are untouched |
| LabelSpreading.SortInPlace | diet_consumption_pie_chart.py:15 | `label_positions.sort(key=y)` in place: the array holds the stable sort of its old contents |
| LabelSpreading.SpreadInPlace | diet_consumption_pie_chart.py:16-22 | the forward pass in place: the array holds the pass over its old contents |
| LabelSpreading.AdjustLabelPositions | diet_consumption_pie_chart.py:13-23 | returns the same list, which now holds the sorted, spread labels |
| DietPie.LeaderEnd | diet_consumption_pie_chart.py:93-95 | the leader end, less its offset, lies on the line from the start through the anchor; with the default length and offset it is the anchor; with length 0 it is the start plus the offset |
| DietPie.Place | diet_consumption_pie_chart.py:69-105 | no label exactly when pct < 0.1; outside exactly when 0.1 <= pct < min_pct; inside at radius 0.6 plus the offset exactly when pct >= 0.1 and pct >= min_pct; an outside label sits at label_distance plus the offset, and its leader runs from fixed_start_distance to its unadjusted anchor when no override exists |
| DietPie.Placements | diet_consumption_pie_chart.py:66-69 | one placement per wedge |
| DietPie.OutsideAnchors | diet_consumption_pie_chart.py:85 | small_label_positions holds one anchor per outside label |
| DietPie.OutsideCaptions | diet_consumption_pie_chart.py:86 | small_labels holds one caption per outside label |
| DietPie.ZipTexts | diet_consumption_pie_chart.py:111-112 | the closing loop draws one text per position |
| DietPie.PlotPie | diet_consumption_pie_chart.py:61-112 | the wedge loop, the adjustment and the closing loop draw exactly the marks of the diet specification |
| DietPie.DietCounts | diet_consumption_pie_chart.py:79-112 | over a whole pie, every labelled wedge gets one text and every outside label one leader line |
| DietPie.ThresholdExamples | diet_consumption_pie_chart.py:69-105 | values [80, 15, 5] with min_pct 5 are all inside; values [90, 3, 7] put only the 3 % wedge outside |
| DietPie.CaptionsCanSwapWedges | diet_consumption_pie_chart.py:108-112 | anchors (-1.0, 0.5) and (-1.1, 0.2) with captions 3.0 % and 1.0 %: the 3.0 % caption is drawn at the 1.0 % wedge's position |
| DietPie.CaptionsMatchWhenAscending | diet_consumption_pie_chart.py:108-112 | when the outside anchors already ascend in y, the k-th caption is drawn at the x of the k-th anchor |
| DietPie.Tag | diet_consumption_pie_chart.py:111 | pairs each position with its caption |
| DietPie.PairedOutsideLabels | diet_consumption_pie_chart.py:108-112 | the corrected layout keeps one label per outside wedge |
| DietPie.PairedLabelsStayWithWedge | diet_consumption_pie_chart.py:108-112 | in the corrected layout, the (x, caption) pairs are those of the input, each caption sits no lower than its own anchor, and any two labels end at least y_spacing apart |
| DietPie.PairedCaptionsStay | diet_consumption_pie_chart.py:108-112 | in the corrected layout, the two labels of the swap example each stay at their own anchor |
| WaterPie.Place | main.py:77-126 | a 0 % wedge gets nothing; Connor's two special wedges are always outside, 'Washing Machine' shifted by 0.1 in x; other wedges below min_pct are outside; a leader runs from radius 0.9 to (0.94 x, 0.92 y) of its label, short of it; the rest are inside at pct_distance exactly when the span is at least 15 degrees |
| WaterPie.Placements | main.py:77-79 | one placement per wedge |
| WaterPie.PlotPie | main.py:77-126 | the wedge loop draws exactly the marks of the placements, in wedge order |
| WaterPie.LabelCounts | main.py:81-126 | at most one label per wedge and only on non-zero values; one leader line per outside label |
| WaterPie.WashingClauseUnreachable | main.py:100-122 | removing the washing-machine disjunct of the third branch changes no placement |
| TransportPie.FilteredLabels | transport.py:67 | the kept modes are those with a positive distance, a missing mode counting as 0, and they keep the order of the mode list |
| TransportPie.FilteredValues | transport.py:68 | one value per kept mode, its distance |
| TransportPie.FilteredValuesPositive | transport.py:67-68 | every kept value is positive, so a non-empty pie has a positive total |
| TransportPie.Place | transport.py:85-100 | every wedge is labelled; outside at 1.2 exactly when pct < min_pct, with a leader from 0.9 to (0.95 x, 0.94 y), short of its label; inside at pct_distance otherwise, with no span test |
| TransportPie.Placements | transport.py:80-85 | one placement per wedge |
| TransportPie.EveryModeLabelled | transport.py:86-100 | every wedge gets exactly one text, and one leader line per outside label |
| TransportPie.PlotPie | transport.py:67-100 | filtering and then the wedge loop draw exactly the marks of the placements of the filtered values |
| TransportPie.WedgeLoop | transport.py:80-100 | the wedge loop over positive values draws exactly the marks of their placements, in wedge order |
| TransportPie.WedgeStyles | transport.py:71 | one style per wedge |
| TransportPie.ModeKeepsStyle | transport.py:81-83 | a mode gets the same colour and hatch in every person's pie, whichever modes were filtered out |
| TransportPie.CarFilteredOut | transport.py:67 | Connor's zero car distance leaves the single mode 'Train' |
| EnergyPieNoAgnel.Place | energy_usage_no_agnel.py:67-84 | outside at 1.2 exactly when pct < min_pct, with a leader from 0.9 to 0.95 of the label, on the mid-angle line; inside at pct_distance exactly when pct >= min_pct and the span is at least 15 degrees; no label otherwise |
| EnergyPieNoAgnel.Placements | energy_usage_no_agnel.py:65-67 | one placement per wedge |
| EnergyPieNoAgnel.PlotPie | energy_usage_no_agnel.py:65-84 | the wedge loop draws exactly the marks of the placements |
| EnergyPieNoAgnel.ZeroValueLabelledOutside | energy_usage_no_agnel.py:67-73 | a zero value is not skipped: it gets an outside 0 % label |
| EnergyPieNoAgnel.LabelCounts | energy_usage_no_agnel.py:70-84 | at most one label per wedge, and one leader line per outside label |
| EnergyPie.Present | energy_usage.py:45 | with no value missing, the values are the present numbers in order |
| EnergyPie.Place | energy_usage.py:67-71 | a wedge is labelled exactly when pct >= min_pct and its span is at least 15 degrees, always inside at pct_distance; never outside |
| EnergyPie.Placements | energy_usage.py:66-67 | one placement per wedge |
| EnergyPie.SubjectMarksShape | energy_usage.py:48-71 | a person with a missing value gets only the grey disc and the text at (0, 0); any other person gets no disc, no leader line, and one text per labelled wedge |
| EnergyPie.PlotPieCharts | energy_usage.py:43-71 | the per-person loop draws, for each person, exactly that person's marks |
| EnergyPie.PlotPie | energy_usage.py:66-71 | the wedge loop draws exactly the marks of the placements |
| EnergyPie.MissingHeatingOil | energy_usage.py:48-54 | Agnel's values [317.50, None] with the text 'N/A' give the placeholder |
| BarValues.Heights | bar_chart_diet.py:52 | same length as the values; None becomes 0 and every other value is unchanged |
| BarValues.Present | bar_chart_diet.py:61 | exactly the non-None values |
| BarValues.MaxOr | bar_chart_diet.py:61 | max with a default: the default for an empty list, otherwise an element no smaller than any other |
| BarValues.MaxValueBounds | bar_chart_diet.py:61 | max_value bounds every present value and is one of them, or is the default when every value is missing |
| BarValues.BarText | bar_chart_diet.py:65-71 | 'N/A' exactly for a missing value, the value otherwise |
| BarValues.Notes | bar_chart_diet.py:64-71 | one note per bar, at its height plus 2 % of max_value |
| BarValues.ScaledChart | bar_chart_diet.py:50-71 | heights from None-to-0, one note per bar; the y-limit is at least 1.15 times every present value and equal to 1.15 times one of them, or 1.15 when every value is missing |
| BarValues.ScaledChartFits | bar_chart_diet.py:61-71 | for non-negative data, every bar and note lies within a non-negative y-axis |
| BarValues.ZeroDataCollapsesAxis | bar_chart_diet.py:61-62 | all-zero data gives the empty y-axis [0, 0] |
| DietBars.InTonnes | bar_chart_diet.py:39-41 | the converted table has as many rows as the original |
| DietBars.InKilograms | bar_chart_diet.py:41 | the opposite conversion keeps the number of rows |
| DietBars.InTonnesKeepsKeys | bar_chart_diet.py:39-41 | persons and foods keep their names and order, and each amount is divided by 1000 |
| DietBars.RoundTrip | bar_chart_diet.py:41 | multiplying back by 1000 restores the original table |
| DietBars.DietTable.constructor | bar_chart_diet.py:5-33 | the table holds the given rows |
| DietBars.DietTable.ConvertToTonnes | bar_chart_diet.py:39-41 | the nested loop in place leaves exactly the converted table |
| DietBars.RowOf | bar_chart_diet.py:44 | data[person] is a row of that person |
| DietBars.Categories | bar_chart_diet.py:44 | one category per food of Jonathan's row |
| DietBars.ValuesOf | bar_chart_diet.py:78-80 | one present value per food of the person |
| DietBars.ConversionKeepsCategories | bar_chart_diet.py:39-44 | the categories read after the conversion equal those before it; each value plotted is the amount in tonnes |
| DietBars.RowOfInTonnes | bar_chart_diet.py:39-41 | looking a person up after conversion gives their converted row |
| DietBars.DietChartLabels | bar_chart_diet.py:65-71 | every diet bar is labelled with its own amount, never 'N/A' |
| ResidentialBars.AgnelChart | bar_chart_residential_energy_consumption.py:18-39 | Agnel's [0.318, None] gives bars 0.318 and 0, y-limit 1.15 times 0.318, and notes 0.318 and 'N/A' |
| ResidentialBars.AllMissing | bar_chart_residential_energy_consumption.py:29-39 | with every value missing, max_value is 1, the axis is [0, 1.15], and every bar is a zero-height 'N/A' |
| TransportBars.PlotBars | bar_chart_transport.py:16-42 | max_value defaults to 0; the y-limit is 0.1 when max_value is 0 and 1.15 times max_value otherwise |
| TransportBars.PlotBarsFits | bar_chart_transport.py:27-42 | for non-negative data the y-axis is never empty and contains every bar and note |
| TransportBars.ZeroIsData | bar_chart_transport.py:36-42 | Connor's [0.040, 0.000]: the zero bar is labelled 0.00, not 'N/A' |
| TransportBars.AllMissing | bar_chart_transport.py:27-42 | with every value missing, the axis is [0, 0.1] and every bar is a zero-height 'N/A' |

## Left out

- Drawing is left out: the matplotlib calls (pie, bar, text, plot), colours (except the transport styles), hatches, fonts, titles, legends, layout, and saving or showing the figure. The model records the texts, leader lines and placeholder disc a loop draws, with their positions and captions.
- matplotlib's computation of the wedge angles, and `np.deg2rad`, `np.cos` and `np.sin`, are inputs: each wedge carries its angles and the unit direction of its mid-angle.
- Number formatting (`'%1.1f%%'`, `'.2f'`) is left out: a label carries the number it shows.
- Floating-point rounding is left out, because all arithmetic is on real numbers.
- DietBars.RoundTrip: holds for real numbers; with floats, multiplying by 1000 after dividing by 1000 can round.
- The outer per-person loops of the diet, water, transport and no-Agnel pie scripts are modelled one person at a time. They only pair axes with persons. The energy usage loop, whose `continue` decides what is drawn, is modelled whole.
- The diet script's `None` defaults for the override tables are left out. The tables are always given, possibly empty.
- Hatch cycling by wedge index (`hatches[i % len(hatches)]`) in the diet, water and energy scripts only styles wedges, so it is left out.
- The x position of a bar's text is left out, because it comes from matplotlib's bar geometry. Its y position is modelled.
- A diet table is a sequence of rows rather than a dictionary. Lookups take the first row of a person, which is the only one in a dictionary.
- bar_charts.py, bar_chart_total.py and bar_chart_water_consumption.py are not part of this model. Their only computation, a maximum scaled by 1.15, is the rule of BarValues.ScaledChart.
- The hard-coded datasets appear only in the example lemmas.

## Findings

| source | as written | input that shows it | evidently intended | confidence | as-written member | corrected member |
|---|---|---|---|---|---|---|
| diet_consumption_pie_chart.py:20 | a label is lifted only when the absolute gap to its adjusted predecessor is below y_spacing, so a label left below a lifted one stays where it is | outside labels at y 0.40, 0.41, 0.41, 0.41 with y_spacing 0.2 end at 0.40, 0.60, 0.80, 0.41; the last overlaps the first | lift on the signed gap, so that every label ends y_spacing above its predecessor and all labels are pairwise apart | medium, not executed | LabelSpreading.CrowdedRunFallsBack | LabelSpreading.SpreadUpSeparates |
| diet_consumption_pie_chart.py:108-112 | the outside positions are sorted by y but their captions keep wedge order, and the two are zipped | outside anchors (-1.0, 0.5) with 3.0 % and (-1.1, 0.2) with 1.0 %, y_spacing 0.15: the 3.0 % caption is drawn at the 1.0 % wedge and the reverse | sort each caption together with its position | high, not executed | DietPie.CaptionsCanSwapWedges | DietPie.PairedLabelsStayWithWedge |

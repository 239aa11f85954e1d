# ALMG session tracker in Dafny

A verified model of the core of the ALMG conversation tracker
(`almg_v3_121625/tools/almg_tracker.py`). The tracker records one point
(x = entropy, y = ambiguity, z = legitimacy) per conversational turn,
labels it with a zone (Green, Gold, Yellow, Red or Purple) by an ordered
rule chain, and summarises a session: the three coordinate averages, the
dominant zone, a drift direction and the list of zone transitions. It can
also draw the trajectory on a 40 x 20 character grid and export or import a
session as a JSON document.

Modules:

- `Zones` (`zones.dfy`): the zone classifier, the zone labels, the risk score.
- `Points` (`points.dfy`): the point record and its construction defaults.
- `Averages` (`averages.dfy`): sums, means, and why a mean lies between the extremes.
- `Drifts` (`drift.dfy`): the drift direction.
- `Dominance` (`dominance.dfy`): counting zones in an insertion-ordered dictionary and the `max` over it.
- `Events` (`events.dfy`): the zone-transition list.
- `Plot` (`plot.dfy`): grid cell arithmetic and drawing the points onto a 2-D array.
- `Records` (`records.dfy`): the field mapping of export and import, with its round trip.
- `Tracker` (`tracker.dfy`): the `Session` class with `AddPoint` and `Summarize`.

Coordinates are mathematical reals, whereas the source computes with
binary floating point. Near a threshold the two can disagree, for example
in the drift's 0.1 test and in the averages (see "## Left out"). The clock and the session-id digest are parameters
(`now`, `generatedId`).

Behaviour of the code that the model keeps:

- The classifier's bounds are inclusive (`<=` on x and y, `>=` on z), so
  (0.3, 0.3, 0.8) is Green.
- The Red test uses x <= 0.95, while the unused `ZONES` table gives 0.9.
- Purple is the final `else` of the rule chain, so any point with x > 0.95
  or z < 0.2 is Purple.
- The drift compares only the z values of the first and last points.
  `DriftIgnoresZones` shows a session whose zone worsens from Yellow to
  Purple while the drift reads "toward_green".
- The summary of an empty session is empty (`NoData`).
- Import does no validation of coordinate ranges or turn order. Among the
  documents the model represents, import fails only when a trajectory entry
  lacks one of the keys turn, x, y, z or zone.
- A transition is labelled with the later point's position + 1. It is not
  labelled with that point's stored `turn`. The two agree for sessions built
  by `AddPoint` (`ReplayFromEmpty`), but a loaded session may differ.

## Model

| member | source | states |
|---|---|---|
| Zones.ZoneName | almg_v3_121625/tools/almg_tracker.py:153-162 | every zone label is non-empty text |
| Zones.ClassifyZone | almg_v3_121625/tools/almg_tracker.py:151-162 | total; Purple exactly when none of the four band tests holds |
| Zones.ClassifyZoneFirstMatch | almg_v3_121625/tools/almg_tracker.py:153-160 | each of Green, Gold, Yellow, Red is returned iff its own test holds and no earlier test does |
| Zones.GreenTakesPrecedence | almg_v3_121625/tools/almg_tracker.py:153-160 | a Green point also passes the Gold, Yellow and Red tests, yet is labelled Green |
| Zones.BandsNested | almg_v3_121625/tools/almg_tracker.py:153-159 | each band lies inside the next one |
| Zones.GreenCornerIsGreen | almg_v3_121625/tools/almg_tracker.py:153-154 | bounds are inclusive: (0.3, 0.3, 0.8) is Green |
| Zones.HighEntropyIsPurple | almg_v3_121625/tools/almg_tracker.py:159-162 | x > 0.95 is always Purple |
| Zones.LowLegitimacyIsPurple | almg_v3_121625/tools/almg_tracker.py:153-162 | z < 0.2 is always Purple |
| Zones.RiskScore | almg_v3_121625/tools/almg_tracker.py:165-170 | on the unit cube the score lies in [0, 1], reaching 0 at the safest and 1 at the riskiest corner |
| Zones.RiskScoreMonotone | almg_v3_121625/tools/almg_tracker.py:165-170 | non-decreasing in x and y, non-increasing in z |
| Zones.RiskScoreStrict | almg_v3_121625/tools/almg_tracker.py:165-170 | any strict move toward more x, y or less z strictly raises the score |
| Points.NewPoint | almg_v3_121625/tools/almg_tracker.py:34-49 | fields are kept; an empty zone becomes the classifier's label, an empty timestamp becomes `now`; the zone is never empty |
| Points.Xs | almg_v3_121625/tools/almg_tracker.py:83 | one x per point, in trajectory order |
| Points.Ys | almg_v3_121625/tools/almg_tracker.py:84 | one y per point, in trajectory order |
| Points.Zs | almg_v3_121625/tools/almg_tracker.py:85 | one z per point, in trajectory order |
| Points.ZoneLabels | almg_v3_121625/tools/almg_tracker.py:86 | one zone label per point, in trajectory order |
| Averages.SumBounds | almg_v3_121625/tools/almg_tracker.py:117-119 | a sum of n terms in [lo, hi] lies in [n*lo, n*hi] |
| Averages.Mean | almg_v3_121625/tools/almg_tracker.py:117-119 | the average times the number of points is the total; one value is its own average |
| Averages.MeanWithin | almg_v3_121625/tools/almg_tracker.py:117-119 | sum / length lies within any common bound of the values |
| Averages.MeanBetweenExtremes | almg_v3_121625/tools/almg_tracker.py:117-119 | each average lies between the smallest and largest coordinate |
| Averages.MeanOfConstant | almg_v3_121625/tools/almg_tracker.py:117-119 | the average of equal values is that value |
| Drifts.DriftName | almg_v3_121625/tools/almg_tracker.py:95-106 | every drift has a non-empty label |
| Drifts.DriftOf | almg_v3_121625/tools/almg_tracker.py:95-106 | unknown iff fewer than 2 points; toward_green only when z rose, toward_red and toward_yellow only when z fell, toward_red only when the last z is below 0.4 |
| Drifts.DriftCases | almg_v3_121625/tools/almg_tracker.py:95-106 | unknown iff < 2 points; stable iff abs(z_last - z_first) < 0.1; toward_green iff it rose by >= 0.1; toward_red iff it fell by >= 0.1 to below 0.4; toward_yellow iff it fell by >= 0.1 to 0.4 or more |
| Drifts.DriftEndpointsOnly | almg_v3_121625/tools/almg_tracker.py:95-97 | only the first and last z matter |
| Dominance.DominantUnique | almg_v3_121625/tools/almg_tracker.py:89-92 | occurring, most frequent and earliest-first-seen among ties determine one zone |
| Dominance.MajorityIsDominant | almg_v3_121625/tools/almg_tracker.py:89-92 | a zone filling more than half the trajectory is dominant |
| Dominance.CountsStep | almg_v3_121625/tools/almg_tracker.py:90-91 | one `get(z, 0) + 1` update keeps every count equal to the occurrences seen so far |
| Dominance.KeysStep | almg_v3_121625/tools/almg_tracker.py:90-91 | a zone seen for the first time is appended to the dictionary's key order, which stays first-occurrence order |
| Dominance.CountZones | almg_v3_121625/tools/almg_tracker.py:89-91 | the dictionary holds exactly the zones present, each with its number of occurrences, keys in first-occurrence order |
| Dominance.DominantZone | almg_v3_121625/tools/almg_tracker.py:89-92 | the result occurs, no zone occurs more often, and ties go to the zone seen first |
| Events.Transitions | almg_v3_121625/tools/almg_tracker.py:108-114 | no events for fewer than 2 points; every event changes the zone |
| Events.TransitionsExact | almg_v3_121625/tools/almg_tracker.py:109-114 | an event is listed iff some neighbouring pair (i-1, i) differs in zone, with turn i+1, from zone i-1, to zone i |
| Events.TransitionsOrdered | almg_v3_121625/tools/almg_tracker.py:109-114 | events are in trajectory order with strictly increasing turns in [2, n] |
| Events.TransitionsBound | almg_v3_121625/tools/almg_tracker.py:109-110 | at most n-1 events; none for 0 or 1 points |
| Events.NoTransitionsIffConstant | almg_v3_121625/tools/almg_tracker.py:109-114 | no events iff all zones are equal |
| Events.TransitionsChain | almg_v3_121625/tools/almg_tracker.py:109-114 | each event starts where the previous ended; the first leaves the first zone, the last reaches the last zone |
| Events.NotableEvents | almg_v3_121625/tools/almg_tracker.py:108-114 | the loop yields exactly the transition list of the zones |
| Plot.Truncate | almg_v3_121625/tools/almg_tracker.py:299-300 | truncation toward zero: within one unit of the real, on the side of zero |
| Plot.Clamp | almg_v3_121625/tools/almg_tracker.py:301-302 | the result is within bounds and equals the input when it already is |
| Plot.Column | almg_v3_121625/tools/almg_tracker.py:299-302 | for any x the column is in [0, 40) |
| Plot.Row | almg_v3_121625/tools/almg_tracker.py:300-301 | for any z the row is in [0, 20) |
| Plot.CellUnclampedOnUnitScale | almg_v3_121625/tools/almg_tracker.py:299-302 | for x, z in [0, 1] the clamp does not change the cell |
| Plot.TruncateMonotone | almg_v3_121625/tools/almg_tracker.py:299-300 | truncation is monotone |
| Plot.CellMonotone | almg_v3_121625/tools/almg_tracker.py:299-302 | more entropy is never further left; more legitimacy is never lower |
| Plot.Glyph | almg_v3_121625/tools/almg_tracker.py:305-306 | no zone is drawn as a blank |
| Plot.CellAfterLastHit | almg_v3_121625/tools/almg_tracker.py:298-306 | a cell is blank iff no point lands in it, otherwise it shows the latest point that does |
| Plot.PlotPoints | almg_v3_121625/tools/almg_tracker.py:293-306 | the 20 x 40 grid holds, per cell, what the drawing order leaves there |
| Records.EncodePoint | almg_v3_121625/tools/almg_tracker.py:132 | an exported entry has every required key and decodes back to the same point when neither default would fire |
| Records.DecodePoint | almg_v3_121625/tools/almg_tracker.py:140-142 | fails iff turn, x, y, z or zone is missing; otherwise keeps them, defaults topic to empty, keeps a non-empty zone and classifies an empty one, keeps a non-empty timestamp and stamps an empty one with `now` |
| Records.DecodePoints | almg_v3_121625/tools/almg_tracker.py:140-142 | succeeds iff every entry has its required keys, decoding each entry in order |
| Records.EncodeSession | almg_v3_121625/tools/almg_tracker.py:125-134 | the export records the number of points |
| Records.DecodeSession | almg_v3_121625/tools/almg_tracker.py:136-148 | fails iff a point entry is incomplete; otherwise the points are the entries decoded in order, a missing model becomes "Unknown", a missing id or creation time becomes empty |
| Records.InitSession | almg_v3_121625/tools/almg_tracker.py:59-65 | an empty id becomes the generated one, an empty creation time becomes `now`, all else is kept |
| Records.DecodePointsRoundTrip | almg_v3_121625/tools/almg_tracker.py:132-142 | decoding the exported points gives the points back |
| Records.SessionRoundTrip | almg_v3_121625/tools/almg_tracker.py:125-148 | import after export rebuilds the same session whatever the clock |
| Tracker.Recorded | almg_v3_121625/tools/almg_tracker.py:67-74 | the added point has turn = previous count + 1, the given coordinates and topic, the classified zone and the current time |
| Tracker.ReplayAppends | almg_v3_121625/tools/almg_tracker.py:67-76 | repeated additions keep the earlier points and append one recorded point per reading |
| Tracker.ReplayFromEmpty | almg_v3_121625/tools/almg_tracker.py:67-76 | n additions to an empty session give turns 1..n in order, each point classified |
| Tracker.GreenGoldYellowTrajectory | almg_v3_121625/tools/almg_tracker.py:67-76 | (0.15, 0.12, 0.88), (0.35, 0.40, 0.72), (0.75, 0.78, 0.45) are recorded as Green, Gold, Yellow |
| Tracker.GreenGoldYellowZones | almg_v3_121625/tools/almg_tracker.py:89-114 | Green, Gold, Yellow has transitions at turns 2 and 3 and Green dominant, as the first seen of three tied zones |
| Tracker.GreenGoldYellowExample | almg_v3_121625/tools/almg_tracker.py:78-123 | Green, Gold, Yellow gives transitions at turns 2 and 3, drift toward_yellow, Green dominant |
| Tracker.DriftIgnoresZones | almg_v3_121625/tools/almg_tracker.py:95-104 | a Yellow-to-Purple session can drift toward_green |
| Tracker.Session.constructor | almg_v3_121625/tools/almg_tracker.py:51-65 | the fields are the arguments with the id and creation-time defaults applied |
| Tracker.Session.AddPoint | almg_v3_121625/tools/almg_tracker.py:67-76 | the trajectory grows by exactly the recorded point; nothing else changes; sequential turns stay sequential |
| Tracker.Session.Summarize | almg_v3_121625/tools/almg_tracker.py:78-123 | no data iff the trajectory is empty; otherwise the means (between the extremes), the dominant zone, the drift and the transition list |
| Tracker.Session.ToDoc | almg_v3_121625/tools/almg_tracker.py:125-134 | the export records the number of points |

## Left out

- `interactive_session`, `analyze_file`, the printing half of `visualize_ascii` and `main`: terminal and file I/O around the core; their only logic is calling the modelled operations.
- JSON text, `json.dumps` / `json.loads` and `dataclasses.asdict`: documents are modelled as records of optional keys. JSON `null` values, keys of the wrong type and unexpected keys in a point entry are not modelled.
- Records.EncodeSession: the export also embeds the session summary. The record leaves it out, because import ignores it.
- Tracker.Session.ToDoc: the same omission, since it is `EncodeSession` of the fields.
- Notable-event text: events are kept as (turn, from, to) records. The text "Turn n: A → B" is not rendered.
- The md5 session-id digest and `datetime.now()`: foreign calls, so they are the parameters `generatedId` and `now`. The source reads the clock separately for each point built in one import. The model uses one reading `now` for all of them.
- `print_zone_indicator`: ANSI colour decoration only.
- The `ZONES` table: `classify_zone` never consults it.
- Floating-point rounding and `float()` parsing: coordinates are exact reals.
- Drifts.DriftOf: the 0.1 test is applied to the exact difference of the last and first z. In floating point, 0.6 - 0.5 is 0.09999999999999998, so the program reports "stable" for z going from 0.5 to 0.6, while the model says toward_green. Likewise 0.9 to 0.8 is "stable" in the program and toward_yellow in the model.
- Averages.MeanBetweenExtremes: the bounds hold in exact arithmetic. In floating point the mean of [0.1, 0.1, 0.1] is 0.10000000000000002, above the maximum. The same applies to Averages.MeanOfConstant and to the bounds that Tracker.Session.Summarize states.
- Import failures beyond missing keys: an entry with an unknown key, a `null` trajectory and malformed JSON all make the program fail. None of them is a document the model represents.

# closenesslines in Dafny

closenesslines turns a two-person chat export into two "closeness" curves:
one message-density line per participant, plotted over time. This project
models the discrete and structural core of that app and proves what it
promises:

- **Ordered search** (`Search`): the floor-nearest binary search that every
  range lookup goes through.
- **Curve pipeline** (`Sampling`, `Lines`, `Density`):
  - the event histogram, built by one forward cursor;
  - the fold over a binary-searched index window;
  - the windowed kernel density estimate;
  - evenly spaced ticks and the halving bandwidth ladder;
  - the 25-bandwidth mixture of `getLines`;
  - pointwise mixing and mapping of lines;
  - the final min-max rescale;
  - the in-place splice of an inset range.
- **Chat cleaning** (`Uploader`, with `Tally` and `Sorting`): `processChat`.
  It drops incomplete messages, counts senders, keeps the two most prolific,
  sorts by time and builds the chat key.
- **Chat-list bookkeeping and app state** (`ChatList`, `AppModel`):
  - de-duplication by key, where the last chat wins;
  - `tidyChats`: participant promotion, sort by volume, short-chat filter;
  - the `useModel` hook's state as a class, whose transitions are
    `navigate`, `addChats`, `selectChat` and `updateSettings`.
- **Plot shaping** (`ChatViz`): the contour set, the trace record and
  `snakeCase`.

Modelling choices:

- Message times are `int` milliseconds. Curve timestamps and values are
  exact `real`s.
- The Gaussian kernel `fastNormal` and the normal density `normal` are
  function parameters. Where their sign matters, the lemmas assume they are
  non-negative.
- JavaScript's `undefined` and `null` are `Option.None`. A missing name
  prints as `undefined` in string concatenation (`Chats.Label`).
- `Array.prototype.sort` with a `key(a) - key(b)` comparator is stable, so
  it has exactly one result. `Sorting.SortBy` is that stable sort.
- A JavaScript object used as a counter or hashmap is a `map` plus the
  order in which its keys were first inserted. That insertion order is the
  order `Object.keys` and `Object.values` list them in.
- `Date.now()` is the parameter `now`.

Where the code returns `NaN` (zero-width windows, flat lines) or throws
(indexing past the end of a line), the model requires the inputs that
avoid it instead. The list is below.

## Model

| member | source | states |
|---|---|---|
| Search.BinarySearch | src/binarySearch.js:2-13 | For non-empty input the index is in bounds. On ascending input it is exactly `FloorIndex`, proved through the bracket invariant of the bisection loop. |
| Search.FloorIndexIsNearestFloor | src/binarySearch.js:1-12 | On ascending input the search returns 0 when `seek` lies below every value and the last index when it lies above every value. Otherwise it returns a value at most `seek` that no other value at most `seek` exceeds. |
| Sampling.Ceil | src/getLines.js:71 | `Math.ceil` on exact reals: the least integer at or above `x`. |
| Sampling.TickStepSign | src/getLines.js:71 | The tick spacing is a non-negative whole number, and at least 1 when `start < end`. |
| Sampling.TimeInterval | src/getLines.js:69-76 | The loop builds exactly `Ticks(start, end, numTicks)`. |
| Sampling.TicksCoverRange | src/getLines.js:69-76 | The first tick is `start`. Consecutive ticks differ by the ceiled step. The last tick reaches `end` and overshoots it by less than one unit per gap. |
| Sampling.TicksAscending | src/getLines.js:69-76 | On `start <= end` the ticks ascend, strictly when `start < end`. |
| Sampling.LogSequence | src/getLines.js:92-99 | The loop yields `count` values, element `i` being `base / 2^i`, and all of them are positive for a positive base. |
| Sampling.HalvingLadder | src/getLines.js:92-99 | Each rung is half the one before, so a positive base gives positive, strictly decreasing bandwidths. |
| Lines.MixLines | src/getLines.js:78-88 | The mix has one point per point of the first line. |
| Lines.MixLinesTimes | src/getLines.js:78-88 | The mix keeps the first line's timestamps. |
| Lines.MixSelf | src/getLines.js:78-88 | Mixing copies of one line under weights summing to 1 returns that line unchanged. |
| Lines.MixPair | src/getLines.js:78-88 | A two-line mix is the pointwise weighted sum `wa*a + wb*b`. |
| Lines.MixBetween | src/getLines.js:78-88 | A mix under `(w, 1-w)` with `w` in [0, 1] lies between the two lines, and moves towards line A as `w` grows. |
| Lines.MixMirror | src/getLines.js:78-88 | The even mix of a line and its mirror image `1 - v` is the flat 0.5 line. |
| Lines.WeightedSumNonNegative | src/getLines.js:80-84 | Non-negative values under non-negative weights reduce to a non-negative sum. |
| Lines.MapY | src/getLines.js:90 | `mapY` keeps the length and the timestamps, and applies `f` to each value with its index. |
| Lines.MinOf | src/getLines.js:190 | The minimum is an element of the list and at most every element. |
| Lines.MaxOf | src/getLines.js:191 | The maximum is an element of the list and at least every element. |
| Lines.MarginMonotone | src/getLines.js:194 | The rescale map is strictly increasing and sends [min, max] onto [0.01, 0.99]. |
| Lines.Rescale | src/getLines.js:189-199 | Both lines keep their lengths and timestamps. |
| Lines.RescaleBounds | src/getLines.js:189-199 | Every rescaled value lies in [0.01, 0.99]. A value is 0.01 iff it was the joint minimum, and 0.99 iff it was the joint maximum. The order of any two values across the lines is kept. |
| Lines.SpliceLo | src/getLines.js:218-226 | The first replaced index is clamped into the line. |
| Lines.SpliceHi | src/getLines.js:220-228 | The end of the replaced run is clamped to the line's length. |
| Lines.SpliceBounds | src/getLines.js:218-228 | The searched and clamped bounds are in range, and on ascending timestamps they are `SpliceLo` and `SpliceHi`. |
| Lines.SplicedLineShape | src/getLines.js:215-231 | A zero first inset value leaves the line untouched. Otherwise, on strictly increasing timestamps, the result is a prefix of points before `start`, the whole inset, then a suffix of points after `end`. |
| Lines.GetLinesWithInsetRange | src/getLines.js:213-231 | Without an inset both lines are unchanged. With one, each line's points are rewritten in place to its spliced line. |
| Density.ScanBucket | src/getLines.js:32-37 | The cursor stops at the end of the leading run below `time`. The count is the number of consumed inputs at or after `first`. |
| Density.Histogram | src/getLines.js:23-44 | The cursor loop builds `HistogramOf`. The result is two parallel arrays of at most `nBuckets` entries. Every count is at least 1, and the timestamps ascend strictly and lie strictly inside `(first, last)`. For `nBuckets > 0` the counts sum to the inputs in `[first, last)`. |
| Density.HistogramShape | src/getLines.js:23-44 | After `m` buckets of non-negative width the same shape and sum laws hold up to the `m`-th edge. |
| Density.CountInAscending | src/getLines.js:33-35 | On sorted input the count in `[lo, hi)` is the difference of the leading runs below `hi` and below `lo`. |
| Density.ReduceBetween | src/getLines.js:13-21 | The loop folds `f` over exactly the indices from the search hit for `start` to the search hit for `end`, both included. |
| Density.FoldRangeGrows | src/getLines.js:17-19 | A fold whose every step can only add ends at or above its start value. |
| Density.KdeOfShape | src/getLines.js:52-66 | A KDE curve has one point per sample, and its timestamps are the samples. |
| Density.DensityOfSample | src/getLines.js:52-65 | One sample's windowed fold is `DensityAt`, and 0 over an empty histogram. |
| Density.DensitiesAtSamples | src/getLines.js:52-66 | The map over the samples pairs each sample, in order, with the density there. |
| Density.Kde | src/getLines.js:46-67 | The histogram over the samples' span with `samples.length * histogramResolution` buckets, then the per-sample fold, gives `KdeOf`. |
| Density.DensityAtNonNegative | src/getLines.js:55-64 | With a non-negative kernel the density at a sample is non-negative. |
| Density.KdeNonNegative | src/getLines.js:46-67 | With a non-negative kernel every density of a KDE curve is non-negative. |
| Density.MixtureWeights | src/getLines.js:124-132 | There is one mixture weight per bandwidth, 25 in all. |
| Density.BandwidthCurves | src/getLines.js:142-163 | There is one curve per bandwidth, 25 in all. |
| Density.BandwidthCurvesMixable | src/getLines.js:142-152 | Every bandwidth curve has one point per tick and the ticks as timestamps, so the curves can be mixed under the 25 weights. |
| Density.MixedLine | src/getLines.js:142-152 | A participant's mixed line has one point per tick, and its timestamps are the ticks. |
| Density.BandwidthCurve | src/getLines.js:143-150 | One element of `bandwidths.map(b => KDE(...))` is the KDE over the `timeInterval` ticks. |
| Density.KdeAtEach | src/getLines.js:142-151 | There is one curve per bandwidth, and curve `j` is the KDE at bandwidth `j` over the same ticks. |
| Density.MixedDensity | src/getLines.js:121-163 | The halving bandwidths, the KDE at each and the mix give `MixedLine`: the 25 curves at bandwidths `base / 2^j`, mixed. |
| Density.MixedDensityNonNegative | src/getLines.js:142-163 | With a non-negative kernel and non-negative weights the mixed line is non-negative everywhere. |
| Density.WindowPadding | src/getLines.js:115-118 | The padded window contains the message span and is strictly wider than it. The end padding is taken from the padded start, so it is 21/20 of the start padding. |
| Density.ChatWindow | src/getLines.js:114-118 | A chat whose last message is later than its first gets a window of positive width. |
| Density.SenderTimesSorted | src/getLines.js:134-139 | One sender's timestamps, from a chat sorted by time, are sorted. |
| Density.DensityLine | src/getLines.js:110-163 | One participant's line, built from the sorted messages, is `ParticipantLine`: the sender's times, KDEs at 25 bandwidths halving from the window width, sampled over the range and mixed. |
| Density.GetDensityLines | src/getLines.js:100-163 | Line A is the participant line of index 0 and line B that of index 1, under the settings' `flipped`, bias and variance. |
| Density.ParticipantLineShape | src/getLines.js:119-163 | Each line has `numSamples` points whose timestamps are the ticks over the sample range, which defaults to the padded window. It is non-negative when the kernel and the normal density are. |
| Density.FlipSwapsLines | src/getLines.js:111-112 | Flipping swaps the lines: line A of a flipped chat is line B of the unflipped one, and vice versa. |
| Sorting.SortBy | src/ChatUploader.js:118 | The sort is a permutation of its input. |
| Sorting.SortBySorted | src/ChatUploader.js:118 | The sort's output is ordered by the key. |
| Sorting.SortByStable | src/useModel.js:69 | Elements with equal keys keep their relative order. |
| Tally.Occurrences | src/ChatUploader.js:106-110 | A count is positive iff the element occurs. |
| Tally.FirstAppearance | src/ChatUploader.js:106-111 | The object's key order lists exactly the elements of the input. |
| Tally.FirstAppearanceOnce | src/ChatUploader.js:106-111 | Each key is listed once. |
| Tally.CountKeys | src/ChatUploader.js:106-110 | The counting loop's keys are the input's elements in first-appearance order, and each count is that element's number of occurrences. |
| Tally.RankedByOccurrences | src/ChatUploader.js:111-113 | The ranking lists each distinct element once, by non-increasing count. An element not among the first `i` ranked occurs at most as often as the `i`-th. |
| Tally.RankKeys | src/ChatUploader.js:111-113 | Sorting the keys with the comparator that reads the counting object gives `Ranked`. |
| Tally.RankedTopTwo | src/ChatUploader.js:111-113 | The ranking's head is an input element occurring most often. A runner-up exists iff another element does, and it occurs most often among the rest. |
| Uploader.Completed | src/ChatUploader.js:104 | Exactly the entries with a date, a non-empty sender and a non-empty text survive. Each survives as a message as often as it occurs in the input. |
| Uploader.FromEither | src/ChatUploader.js:114-116 | Exactly the messages of the two senders are kept, each as often as before. |
| Uploader.Nth | src/ChatUploader.js:111 | Destructuring yields the element, or `undefined` past the end. |
| Uploader.DecimalRoundTrip | src/ChatUploader.js:121 | Reading back the decimal rendering of the count gives the count. |
| Uploader.LastFieldAfterDash | src/ChatUploader.js:121 | The text after the key's last dash is the rendered count. |
| Uploader.ProcessChat | src/ChatUploader.js:103-123 | The filter, count, rank, sender filter and time sort give `Processed`. |
| Uploader.ProcessedParticipants | src/ChatUploader.js:106-113 | The first participant sent at least as many messages as anyone, and the second at least as many as anyone but the first. They differ. Each is `undefined` exactly when there are not enough senders. |
| Uploader.ProcessedMessages | src/ChatUploader.js:114-122 | The messages are exactly the complete messages of the two participants, as a multiset. They are sorted by time, with equal times in input order. The provider passes through. |
| Uploader.ProcessedKeyCount | src/ChatUploader.js:120-121 | The key's last field is the decimal number of messages kept. |
| ChatList.Deduplicated | src/useModel.js:35-41 | There is one element per distinct key. |
| ChatList.Unique | src/useModel.js:35-41 | The hashmap loop and `Object.values` give `Deduplicated`. |
| ChatList.Index | src/useModel.js:36-39 | The `forEach` leaves each key mapped to its last element, with the keys in first-insertion order. |
| ChatList.DeduplicatedLastWins | src/useModel.js:35-41 | The result's keys are distinct and are exactly the input's keys. Each kept element has no later input element with the same key. |
| ChatList.DeduplicatedOfDistinct | src/useModel.js:35-41 | A list with distinct keys is unchanged. |
| ChatList.DeduplicatedIdempotent | src/useModel.js:35-41 | De-duplicating twice is de-duplicating once. |
| ChatList.DeduplicatedOfRepeat | src/useModel.js:91-98 | Adding the same chats again to a stored list leaves it as it was. |
| ChatList.ParticipantLabels | src/useModel.js:49-56 | The counted names are both participants of every chat, first then second. |
| ChatList.IndexOf | src/useModel.js:61-63 | `indexOf` finds the first position of a present name, and gives -1 for an absent or `undefined` one. |
| ChatList.Promote | src/useModel.js:60-66 | Only the order of the two participants may change. Afterwards the first ranks no later than the second. |
| ChatList.PromoteAll | src/useModel.js:60-66 | Every chat is promoted, in place. |
| ChatList.Voluminous | src/useModel.js:70 | Exactly the chats with at least ten messages are kept, each as often as before. |
| ChatList.VoluminousSorted | src/useModel.js:69-70 | Filtering after the volume sort keeps the order. |
| ChatList.TidyChats | src/useModel.js:43-73 | The count, rank, promotion, sort and filter give `Tidy`. |
| ChatList.TidyVolume | src/useModel.js:69-70 | The tidied list is a sub-multiset of the promoted chats: exactly those with at least ten messages. It is ordered by non-increasing volume. Each chat is an input chat with at most its participants swapped. |
| ChatList.TidyByVolume | src/useModel.js:69 | The tidied list runs by non-increasing message count. |
| ChatList.PromotedInOrder | src/useModel.js:57-66 | A promoted chat puts first a participant who is counted at least as often as the second, unless the first is `undefined`. |
| ChatList.TidyPromotes | src/useModel.js:48-66 | In every tidied chat the first participant appears in at least as many input participant slots as the second, unless the first is `undefined`. |
| AppModel.BumpOnlyNamed | src/useModel.js:115-118 | Bumping sets the named nonce to `now` and no other. |
| AppModel.ApplyOverwrites | src/useModel.js:114 | An update overwrites exactly its keys: each of the eight settings takes the update's value where present and keeps its own otherwise. |
| AppModel.ApplyMerges | src/useModel.js:114 | Two updates in a row equal their merge, where the later key wins. Repeating an update changes nothing more. |
| AppModel.Model.constructor | src/useModel.js:76-80 | The initial page, chats, selection, settings and nonces are the defaults. |
| AppModel.Model.Chats | src/useModel.js:86 | The exposed chats have at least ten messages each and non-increasing volume. Each is a stored chat with at most its participants swapped. It reads the state without changing it. |
| AppModel.Model.Navigate | src/useModel.js:90 | Only the page changes, so the stored keys stay distinct. |
| AppModel.Model.AddChats | src/useModel.js:91-107 | The stored chats become the de-duplicated old-plus-new list, and their keys stay distinct. The range is cleared and the flip reset. The new chat is selected iff exactly one came. Only the full nonce is bumped, and the page becomes "chat". Re-adding exactly the stored chats leaves them as they were. |
| AppModel.Model.SelectChat | src/useModel.js:108-112 | The selection becomes `chat`, only the range setting is cleared, and only the full nonce is bumped. |
| AppModel.Model.UpdateSettings | src/useModel.js:113-119 | The settings become the old ones overwritten by the update, and only the named nonce is bumped. |
| ChatViz.ContourWeightsShape | src/ChatViz.js:85-96 | The 13 weight pairs each sum to 1. The weight on line A strictly grows. The set is symmetric about the even mix at its centre. |
| ChatViz.Contour | src/ChatViz.js:85-96 | A contour has line A's length and timestamps. |
| ChatViz.MixContourLines | src/ChatViz.js:78-115 | The set has 3 entries without full contours and 15 with them. |
| ChatViz.ContourSetShape | src/ChatViz.js:78-115 | The set starts with the two lines unchanged. Only the even mix is titled, "Conversation Balance". Every contour keeps line A's timestamps and lies between the two lines. The full set moves monotonically towards line A. |
| ChatViz.Plotify | src/ChatViz.js:8-22 | `x` and `y` are the line's timestamps and values. The name is the title. The legend is shown iff the title is truthy. |
| ChatViz.PlottedLegend | src/ChatViz.js:8-22 | In a plotted contour set the legend shows exactly the titled input lines and the even mix. Every other trace is a grey stroke of width 0.25. |
| ChatViz.Lower | src/ChatViz.js:117 | Lower-casing maps every character. |
| ChatViz.LowerLaws | src/ChatViz.js:117 | Lower-casing keeps whitespace and leaves no ASCII capital. |
| ChatViz.SnakeCaseFirstRun | src/ChatViz.js:117 | Only the first maximal whitespace run becomes `_`, and the whole string is lower-cased. Whitespace remains exactly where the rest had some. No ASCII capital remains. |

## Left out

- `fastNormal` and `normal` (src/getLines.js:3-11): floating-point transcendental functions. They are the parameters `kernel` and `normal`.
- `getBandwidthVariance` and its per-render overwrite of `settings.bandwidthVariance` (src/useModel.js:23-27, 82): floating point. The variance is a plain settings field.
- The power and log scaling, the area scaling and the `exp`-based closeness damping (src/getLines.js:164-187): floating point. `Density.GetDensityLines` stops at the mixture. The final rescale is modelled on its own as `Lines.Rescale`.
- Density.Histogram: the source accumulates `time += interval` in floating point; the model uses exact reals, where the `k`-th edge is exactly `first + k * interval`.
- Density.GetDensityLines: requires a given sample range to start no later than it ends. The range comes from the plot's x-axis selection (src/ChatViz.js:145-156), which the plotting library reports low end first.
- Density.GetDensityLines: requires the first message time to be strictly before the last. With a single instant the window has zero width and every bandwidth is 0, so the source computes `NaN`.
- Lines.Rescale: requires the joint maximum to exceed the joint minimum. The source divides by zero there and yields `NaN`.
- Sampling.TimeInterval: requires `numTicks >= 2`. The source divides by zero for one tick.
- Search.BinarySearch: requires non-empty input. The source's behaviour on an empty array comes only from `undefined` comparisons.
- Lines.MixLines: requires at least one line, no more weights than lines, and every weighted line at least as long as the first. Otherwise the source throws a `TypeError`: `lines[0].map` on an empty list, or `lines[j][i][1]` where `lines[j]` or `lines[j][i]` is `undefined` (src/getLines.js:79-81).
- ChatViz.MixContourLines: requires line B to be at least as long as line A. Otherwise `mixLines` reads `lines[1][i][1]` past the end of line B and throws a `TypeError`.
- Lines.GetLinesWithInsetRange: the two `getLines` calls it makes are inputs (the full lines and the `Inset`). The splice bounds are stated for ascending timestamps, which the ticks are.
- The numeric coercions `+m.datetime` and `+d[1]`: times and values are numbers already. Invalid dates and `NaN` timestamps are not modelled.
- `plotify`'s conversion of timestamps to `Date` objects: `x` keeps the timestamps. The constant fields `type`, `mode` and `hoverinfo` are omitted.
- JavaScript object quirks in `processChat` and `tidyChats`: `Object.keys` lists integer-like keys before the others, and keys such as `constructor` hit inherited properties. The model uses plain insertion order.
- ChatViz.ToLower: lower-cases ASCII letters only. Unicode case mapping is not modelled.
- The use of `snakeCase` for the download file name (src/ChatViz.js:131-133): it is a call into the plotting library.
- AppModel.Model.UpdateSettings: the default `redrawMode` of 'full' is the caller passing `Full`.
- React's batching of state updates and re-rendering: each transition is one atomic method.
- File import, the chat-export parsers, the network and the server (src/ChatUploader.js:11-101 and 125-196, api/, server.js): I/O and library code.
- The UI components and Plotly calls (src/App.js, src/ChatTranscript.js, src/ChatSettingSliders.js, src/Tutorial.js, src/ChatViz.js:24-73 and 119-237): rendering only.

# Simple Graph Generator: a Dafny model of the chart page

The web page lets a user type a chart type, a title, comma-separated labels
and comma-separated numbers, renders a chart through a charting library, and
exports the rendered canvas as `chart.png` or `chart.jpg` at 1x to 4x size.
The logic lives twice, in `src/lib/chart.ts` (inside `initChart`, with
`myChart` as a closure variable) and in `src/scripts/chart.js` (the same
functions with a module-level `myChart`). One model covers both. The
`source` column below cites `chart.ts` (and the form's starting values in
`src/components/ChartForm.tsx`); the `states` column gives the matching
lines of `chart.js`.

The model has seven modules:

- `Wrappers`: `Option`. `None` stands for NaN or `undefined`.
- `Text`: JavaScript's `split` with a one-character separator and `trim`.
  `Split` comes with `Join` as its inverse. `Trim` is characterised by
  `TrimOfPadded`: trimming removes exactly the whitespace around a string
  whose ends are not whitespace.
- `Input`: the label and data parsing of `generateChart`. The float parser is
  a parameter `parse: string -> Option<N>`, where `N` is the number type.
- `Colors`: `generateColors`. It is a method with a loop, proved against the
  value functions `Backgrounds` and `Borders`. A colour is an
  `HSLA(hue: real, sat, light, alpha)` record, and the hue is an exact real.
- `ChartConfig`: the config object as a typed record, and `BuildConfig`, the
  pure mapping that builds it. `WellFormed` says what an installed chart
  always looks like.
- `Export`: what `downloadImage` computes. This is the export size, the MIME
  type, the quality and the file name.
- `Page`: the `myChart` slot as the class `ChartPage`. A library chart is a
  `ChartInstance` object with a `live` flag cleared by `Destroy`. A ghost
  `history` records every instance created and destroyed, in order, and
  the class invariant `Valid` says that no instance other than the
  installed one is still live.
  `Generate`, `DownloadImage`, `DownloadPng` and `DownloadJpg` are the page's
  actions. Form fields and canvas sizes are parameters, and an alert is a
  returned flag.

A few things the page seems to offer are not in the core code:

- The form offers eight colour schemes (`src/components/ChartForm.tsx:39-46`),
  but `generateChart` never reads that field. The rainbow of
  `generateColors` is the only palette.
- The export at `src/lib/chart.ts:81-87` draws the chart onto a new canvas
  that is never filled, so transparent areas stay transparent. Only
  `src/components/ChartDownload.tsx:40-50` fills a white background.
- No config built here sets `scales`.
- Numbers that do not parse are dropped (`src/lib/chart.ts:13`), not
  replaced by zero.

## Model

| member | source | states |
|---|---|---|
| Text.Split | src/lib/chart.ts:12-13 | `split(',')` always gives at least one piece (`""` gives `[""]`); same calls at src/scripts/chart.js:9-10 |
| Text.SplitPiecesFree | src/lib/chart.ts:12-13 | no piece contains the separator |
| Text.JoinSplit | src/lib/chart.ts:12-13 | joining the pieces with the separator restores the input (nothing is lost by splitting) |
| Text.SplitJoin | src/lib/chart.ts:12-13 | splitting a join of separator-free pieces gives the pieces back |
| Text.SplitAppend | src/lib/chart.ts:12-13 | a separator splits a string into the pieces of its left part followed by those of its right part |
| Text.SplitNoSeparator | src/lib/chart.ts:12-13 | a string without the separator is one piece |
| Text.Trim | src/lib/chart.ts:12-13 | `trim()` never lengthens its input, and the result has no whitespace at either end |
| Text.TrimIsSlice | src/lib/chart.ts:12-13 | the trimmed string is a slice of the input, and everything cut off on both sides is whitespace |
| Text.TrimOfPadded | src/lib/chart.ts:12-13 | whatever whitespace surrounds a string without edge whitespace, trimming returns exactly that string |
| Text.TrimNoEdge | src/lib/chart.ts:12-13 | a string with no whitespace at either end is its own trim |
| Text.TrimBlank | src/lib/chart.ts:12-13 | a string made only of whitespace trims to the empty string |
| Text.TrimIdempotent | src/lib/chart.ts:12-13 | trimming twice is trimming once |
| Input.KeepLabels | src/lib/chart.ts:12 | trim-then-drop-empty yields at most one label per segment (chart.js:9) |
| Input.KeepLabelsTrimmed | src/lib/chart.ts:12 | every kept label is non-empty and has no leading or trailing whitespace |
| Input.KeepLabelsEmpty | src/lib/chart.ts:12 | no label is left if and only if every segment trims to the empty string |
| Input.ParseLabels | src/lib/chart.ts:12 | there are at most as many labels as comma-separated segments (chart.js:9) |
| Input.ParseLabelsTrimmed | src/lib/chart.ts:12 | every parsed label is non-empty and trimmed, and there is at most one per segment |
| Input.ParseLabelsConcat | src/lib/chart.ts:12 | labels keep input order: the labels of `a,b` are those of `a` followed by those of `b` |
| Input.ParseLabelsSegment | src/lib/chart.ts:12 | a single segment gives its trimmed text as the one label, or no label when that is empty |
| Input.ThreeLabels | src/lib/chart.ts:12 | three trimmed, non-empty, comma-free segments give exactly those three labels in order |
| Input.BlankField | src/lib/chart.ts:12-18 | an empty or whitespace-only field gives no label and no number, when the parser rejects `""` as `parseFloat` does; so `Generate` alerts for such a labels or data field (chart.js:9-15) |
| Input.DefaultLabelsParsed | src/components/ChartForm.tsx:66 | the label field's starting text `1月,2月,3月,4月,5月,6月`, parsed as at src/lib/chart.ts:12, gives the six months in order |
| Input.DefaultDataParsed | src/components/ChartForm.tsx:76 | the data field's starting text `12,19,3,5,2,3`, parsed as at src/lib/chart.ts:13, gives its six numbers in order when each of them parses |
| Input.KeepNumbers | src/lib/chart.ts:13 | parse-then-drop-NaN yields at most one number per segment (chart.js:10) |
| Input.KeepNumbersEmpty | src/lib/chart.ts:13 | no number is left if and only if no trimmed segment parses |
| Input.ParseData | src/lib/chart.ts:13 | there are at most as many numbers as comma-separated segments (chart.js:10) |
| Input.ParseDataConcat | src/lib/chart.ts:13 | data keep input order: the numbers of `a,b` are those of `a` followed by those of `b` |
| Input.ParseDataSegment | src/lib/chart.ts:13 | a single segment yields its parsed trimmed text, or nothing when the parse gives NaN |
| Input.ThreeNumbers | src/lib/chart.ts:13 | three comma-free trimmed segments that parse give their three values, in order |
| Colors.Mod360 | src/lib/chart.ts:63 | the remainder modulo 360 of a non-negative number lies in [0, 360) and leaves numbers below 360 unchanged (chart.js:59) |
| Colors.Hue | src/lib/chart.ts:63 | the hue of entry `i < count` lies in [0, 360) and equals `i * 360 / count`: the `% 360` never changes it, and the division is never by zero (chart.js:59) |
| Colors.HueStrictlyIncreasing | src/lib/chart.ts:62-63 | hues strictly increase with the index, so all entries have different hues (chart.js:58-59) |
| Colors.HueStep | src/lib/chart.ts:62-63 | neighbouring hues are `360 / count` degrees apart |
| Colors.HueStartsAtZero | src/lib/chart.ts:63 | the first hue is 0 for every positive count |
| Colors.SixHues | src/lib/chart.ts:63 | six colours sit at 0, 60, 120, 180, 240 and 300 degrees |
| Colors.PaletteEntries | src/lib/chart.ts:64-65 | both palette lists have `count` entries; entry `i` of the background is `hsla(hue_i, 70, 60, 0.7)`, and the border entry is the same colour with lightness 10 lower and alpha 1 (chart.js:60-61) |
| Colors.GenerateColors | src/lib/chart.ts:59-68 | returns two lists of exactly `count` entries, both empty for `count = 0`. Entry `i` of both lists has the same hue `i * 360 / count`, which lies in [0, 360) and strictly increases with `i`. Both have saturation 70. The background has lightness 60 and alpha 0.7; the border has lightness 50 and alpha 1. The lists equal `Backgrounds(count)` and `Borders(count)` (chart.js:55-64) |
| ChartConfig.BuildConfig | src/lib/chart.ts:27-53 | type and labels are passed through. The legend is shown iff the type is `pie` or `doughnut`. The title is always shown, with the title text, at size 18. There is exactly one dataset: labelled with the title, holding the data and both colour lists, with border width 2. The chart is responsive and does not keep its aspect ratio (chart.js:24-50) |
| ChartConfig.GeneratedConfigWellFormed | src/lib/chart.ts:24-53 | with non-empty labels and data the config is well formed. There is one colour per data point, so the colour count follows `data.length`, not `labels.length` (chart.js:21-50) |
| ChartConfig.SixBackgrounds | src/lib/chart.ts:62-64 | the background palette for six data points is `hsla(0, 70%, 60%, 0.7)`, `hsla(60, ...)`, ..., `hsla(300, ...)` |
| ChartConfig.DefaultChart | src/lib/chart.ts:12-53 | the chart built on load from the form's starting values (src/components/ChartForm.tsx:66, 76), when its numbers parse, has the six months as labels, six data points and background hues 0, 60, ..., 300 at 70% / 60% |
| Export.ExportFor | src/lib/chart.ts:82-94 | the export is `width*scale` by `height*scale`. The MIME type is `image/png` iff the format is `png`, and `image/jpeg` otherwise. A quality is given iff the format is `jpg`, and it is then 0.95 with `image/jpeg`. The file name is `chart.` followed by the format (chart.js:78-90) |
| Export.ExportKeepsAspectRatio | src/lib/chart.ts:82-83 | scaling keeps the canvas's aspect ratio (chart.js:78-79) |
| Export.PngExport | src/lib/chart.ts:89-94 | a `png` export is `image/png` with no quality, named `chart.png` |
| Export.JpgExport | src/lib/chart.ts:89-94 | a `jpg` export is `image/jpeg` at quality 0.95, named `chart.jpg` |
| Export.OtherFormatExport | src/lib/chart.ts:89-90 | any format other than `png` and `jpg` gets `image/jpeg` with no quality, because the MIME and quality lines test different strings; only the untyped src/scripts/chart.js:85-86 can receive such a format |
| Export.DoubleScaleExample | src/lib/chart.ts:82-83 | scale 2 on an 800 by 400 canvas gives 1600 by 800 |
| Page.ChartInstance.constructor | src/lib/chart.ts:56 | a new chart instance holds its config and is live (chart.js:52) |
| Page.ChartInstance.Destroy | src/lib/chart.ts:21 | a destroyed instance is no longer live (chart.js:18) |
| Page.ChartPage.constructor | src/lib/chart.ts:4 | the page starts with an empty slot and an empty history, so the no-leak invariant holds (chart.js:1) |
| Page.ChartPage.Replace | src/lib/chart.ts:20-22 | the installed chart, if any, is destroyed, and then a fresh live instance of the config is installed. The history grows by `Destroyed(old)` (when there was one) followed by `Created(new)`. The invariant is kept: the installed chart is live, well formed and recorded as created, and every other instance ever created is recorded as destroyed and no longer live, so no chart leaks (chart.js:17-19, 52) |
| Page.ChartPage.Generate | src/lib/chart.ts:6-57 | the alert fires iff the labels or the data are empty after filtering. If it fires, the slot, the instance in it and the history are all unchanged. Otherwise the old instance is destroyed before a fresh, live instance is installed whose config is `BuildConfig` of the form values and the rainbow palette for `data.length` points. The no-leak invariant of `Replace` is kept (chart.js:3-53) |
| Page.ChartPage.DownloadImage | src/lib/chart.ts:70-97 | alerts and exports nothing iff no chart is installed; otherwise it exports `ExportFor(format, scale, width, height)`. The page is not modified (chart.js:66-93) |
| Page.ChartPage.DownloadPng | src/lib/chart.ts:99-101 | with a chart it exports the scaled canvas as lossless `image/png` named `chart.png`; without one it alerts (chart.js:95-97) |
| Page.ChartPage.DownloadJpg | src/lib/chart.ts:103-105 | with a chart it exports the scaled canvas as `image/jpeg` at 0.95 named `chart.jpg`; without one it alerts (chart.js:99-101) |

## Left out

- Platform I/O is not modelled. The form values and canvas sizes are
  parameters, `alert` is a returned flag, and the 2D context handed to the
  library is dropped. Event-listener wiring and the `load` handler are left
  out: they only call the modelled actions.
- Canvas pixel work is out of scope: `getContext`, `scale`, `drawImage`,
  `toDataURL`, creating the link and clicking it. Only the computed size,
  MIME type, quality and file name are modelled.
- The charting library is foreign code. A chart instance is an object that
  holds its config and a `live` flag; rendering and the other effects of
  `destroy` are not modelled.
- Float parsing is abstract. `parseFloat`, with its prefix parsing and
  infinities, is the parameter `parse`, and NaN is `None`. The parser is
  otherwise unconstrained; `Input.BlankField` assumes only that it rejects
  the empty string, as `parseFloat` does. Parsing the
  scale from the size select is not modelled either: the scale is a `nat`
  (the select offers 1 to 4).
- Colors.Hue: computes in exact reals, so it does not model the rounding of
  the double-precision `i * 360 / count`. The `hsla(...)` text produced by
  string interpolation is kept as a record.
- Text.Trim: works on Unicode code points, not UTF-16 code units. The
  whitespace set is that of ECMAScript (WhiteSpace and LineTerminator).
- Export.ExportFor: keeps `width * scale` as an unbounded natural. It does
  not model how the canvas `width`/`height` attributes convert to unsigned
  32-bit integers.
- Page.ChartPage.Generate: computes the palette and the config before
  `Replace`, which destroys the old chart and installs the new one. The
  source computes them between those two steps. They do not touch
  `myChart`, so the difference cannot be observed.
- `src/components/ChartDownload.tsx` is not part of this model. It is a
  re-rendering export with a timer, a `devicePixelRatio` option and jpg
  quality 1.0, which reads a `window.chartInstance` that no modelled code
  sets.
- `src/components/ChartForm.tsx` is markup and is not part of this model
  beyond the starting values of its label and data fields. No modelled
  code reads its colour-scheme select.

# image-cutter: the selection-and-crop engine, in Dafny

image-cutter is a React component. The user loads an image, drags
rectangles over it, previews each rectangle as a crop of the original
image, and downloads the crops one at a time or all together as a zip
archive. `src/App.tsx` is the current component. `src/App.js` is an earlier
draft of the same gesture.

This project models the logic inside the component and proves properties of
it:

- `Selection` is the drag gesture of App.tsx as a pure state machine.
  A press records the anchor and a move records the cursor.
  A release commits a rectangle relative to the image origin when both
  extents exceed 10 pixels. The remove button splices one rectangle out.
  `Run` replays any sequence of these events.
- `App.Cutter` is the App.tsx component state as a class. Its fields are the
  state variables and its methods are the handlers and effects. Each gesture
  handler is proved equal to `Selection.Step`. Its invariant `Valid` says
  every stored rectangle is larger than 10 pixels in both directions and
  the drawer height is at least its default of 200.
- `Geometry` holds the display-to-natural mapping. The ratios are
  `natural / rendered`, and the crop object is the rectangle scaled by them.
  These are `real` values.
- `Drawer` holds the drawer-height `reduce` as written, and the corrected
  fold (see Findings).
- `Export` holds the names of exported crops. The zip loop adds
  `cropped-image-<i>.jpg` for each found canvas, with `i` counted from 1, in
  order, in folder `cropped-images` of archive `cropped-images.zip`. A single
  download is named `cropped-image-<idx+1>`. The decimal printing of `i` is
  modelled, so the entry names are proved distinct.
- `AppDraft` is App.js: its class, its gesture as a pure state machine, and
  its drawn rectangle. The draft's release appends on every release, with no
  threshold. Its handlers read client coordinates (`clientX`, `clientY`)
  where App.tsx reads page coordinates (`pageX`, `pageY`); the two are the
  same point only on an unscrolled page. It also mixes coordinate spaces:
  the left and top edges are the raw client anchor, while the right and
  bottom edges are the pointer taken relative to the image origin, so each
  extent is the image-relative pointer minus the raw anchor. The draft
  reuses the gesture state `Selection.DragState`, with its own events.

Pointer and element coordinates are `int`. Ratios and crop coordinates are
`real`.

In a few places the code does not do what such a tool would be expected to
do. The model follows the code:
- A drag to the left or upwards could be expected to select the rectangle
  it spans. The code compares signed extents, so such a drag is never
  committed (`Selection.ReversedDragNeverCommits`).
- An export could be expected to fail as a whole when one crop cannot be
  read. The code skips a crop whose canvas is not found, without
  renumbering the others (`Export.MissingCanvasSkipped`).
- The mapping could be expected to refuse an image that is not rendered.
  The code divides without a check; the model requires a positive rendered
  size.

## Model

| member | source | states |
|---|---|---|
| Geometry.Ratio | src/App.tsx:133-134 | the ratio times the rendered size is the natural size; it is 1 when the two sizes are equal and non-negative for a non-negative natural size |
| Geometry.Crop | src/App.tsx:304-309 | the crop's far edges are the rectangle's far edges scaled by the ratios; unit ratios give the rectangle itself |
| Geometry.CropScalesWithRatios | src/App.tsx:304-309 | whenever each ratio maps rendered to natural size, each crop coordinate times the rendered size equals the display coordinate times the natural size |
| Geometry.CropScalesByMetrics | src/App.tsx:133-134 | with the ratios computed from the metrics, the crop x, y, width and height are the display values scaled by natural/rendered |
| Geometry.CropInsideImage | src/App.tsx:304-309 | a rectangle inside the rendered image gives a crop inside the natural image |
| Geometry.CropInsideScaled | src/App.tsx:304-309 | the same for any non-negative ratios that scale the rendered size to the natural size |
| Geometry.InitialCropIsRect | src/App.tsx:55-60 | with the initial 50x50 metrics both ratios are 1 and the crop equals the rectangle |
| Geometry.CropExample | src/App.tsx:304-309 | natural 2000 over rendered 500 gives ratio 4, and rectangle (10,10,100,50) crops to (40,40,400,200) |
| Geometry.ResizeChangesCrop | src/App.tsx:132-138 | a new rendered width changes the crop width of an unchanged rectangle of non-zero width |
| Selection.Released | src/App.tsx:189-204 | a release commits iff both extents are strictly greater than 10; the committed rectangle's corners are the press and release points relative to the image origin |
| Selection.Candidate | src/App.tsx:212-218 | the drawn rectangle exists exactly while dragging and spans from the anchor to the cursor, relative to the image origin |
| Selection.Splice | src/App.tsx:241-245 | removing idx drops exactly that element and keeps the others in order; an index past the end changes nothing |
| Selection.Step | src/App.tsx:183-245 | no handler moves the image origin; only a press starts a drag and a release always ends it; only a release adds a rectangle, at most one, at the end; a press or move leaves the list as it is |
| Selection.Run | src/App.tsx:183-245 | a sequence of handler runs never changes the image origin, and one that ends with a release leaves no drag in progress |
| Selection.ReleaseCommitsIff | src/App.tsx:189-204 | a release always ends the drag; the list grows by one iff the threshold passes and is unchanged otherwise; earlier rectangles stay at the front; the new one is at the end |
| Selection.ThresholdBoundary | src/App.tsx:195 | an extent of exactly 10 is rejected in each direction, and 11 by 11 is accepted |
| Selection.ReversedDragNeverCommits | src/App.tsx:192-195 | a release left of or above the anchor leaves the list unchanged |
| Selection.ReleaseAtCursorCommitsCandidate | src/App.tsx:189-218 | releasing at the cursor commits exactly the rectangle that was drawn |
| Selection.StepKeepsCommittable | src/App.tsx:183-245 | every handler keeps every stored rectangle larger than 10 in both directions |
| Selection.RunKeepsCommittable | src/App.tsx:183-245 | after any sequence of events, no stored rectangle has an extent of 10 or less |
| Selection.RunCommitsAtMostReleases | src/App.tsx:189-204 | the list grows by at most the number of releases |
| Selection.RunWithoutRemovalExtends | src/App.tsx:202 | without removals the old list stays a prefix of the new one |
| Selection.RepeatedDragCommitsTwice | src/App.tsx:183-204 | the same large drag made twice appends two equal rectangles |
| Selection.RemovalKeepsOrder | src/App.tsx:241-245 | removal leaves `rects[..idx] + rects[idx+1..]`, the same multiset minus the removed rectangle |
| App.Cutter.constructor | src/App.tsx:54-70 | the initial state: 50x50 metrics, ratios 1, zero offsets, not dragging, no rectangles, drawer height 200 |
| App.Cutter.OnMouseDown | src/App.tsx:183-188 | sets dragging and records the anchor; only those fields change |
| App.Cutter.OnMouseUp | src/App.tsx:189-204 | always clears dragging; appends the image-relative rectangle iff both extents exceed 10; keeps the invariant |
| App.Cutter.OnMouseMove | src/App.tsx:205-209 | records the cursor; only the cursor changes |
| App.Cutter.RemoveRect | src/App.tsx:241-245 | the list becomes `rects[..idx] + rects[idx+1..]`; keeps the invariant |
| App.Cutter.UpdateSize | src/App.tsx:107-116 | copies the six element metrics when the element exists; otherwise every metric is unchanged |
| App.Cutter.UpdateRatios | src/App.tsx:132-138 | each ratio times the rendered size is the natural size |
| App.Cutter.CropOf | src/App.tsx:304-309 | with current ratios, each crop coordinate is the rectangle's coordinate scaled from rendered to natural pixels |
| App.Cutter.UpdateMaxHeight | src/App.tsx:140-150 | stores the reduce as written: never below 200, and either 200 or the last rectangle's height plus 15 |
| Drawer.DrawerHeight | src/App.tsx:141-147 | the reduce as written: 200 for no rectangles, never below 200, and either 200 or the last rectangle's height plus 15 |
| Drawer.HeightStep | src/App.tsx:142-146 | one step of the reduce: at least 200 when the running value is; either 200, or the new height plus 15 and then more than the running value plus 15 |
| Drawer.DrawerHeightFromSomeRect | src/App.tsx:141-147 | the result is 200 or some rectangle's height plus 15 |
| Drawer.DrawerHeightIgnoresEarlierTallRect | src/App.tsx:141-147 | heights 300 then 310 give 200, below the taller last crop, where the intended height is 325; 300 then 100 also give 200, where 315 is intended |
| Drawer.IntendedDrawerHeight | src/App.tsx:141-147 | at least 200 and at least every height plus 15, and equal to 200 or one of them |
| Drawer.DrawerHeightAtMostIntended | src/App.tsx:141-147 | the reduce as written never exceeds the intended height |
| Drawer.DrawerHeightAgreesWhenSteep | src/App.tsx:141-147 | when the first height exceeds 200 and each height exceeds the previous one plus 15, the reduce as written equals the intended height, the last height plus 15 |
| Export.Decimal | src/App.tsx:95-97 | a number prints as a non-empty string of digits with no leading zero, a single digit exactly below 10 |
| Export.DecimalInjective | src/App.tsx:95-97 | different crop numbers print as different decimal strings |
| Export.ParseDecimalInverts | src/App.tsx:95-97 | reading the printed number back gives the number |
| Export.EntryName | src/App.tsx:97 | the entry is `cropped-image-`, the decimal number, then `.jpg`, and the number reads back from the middle |
| Export.DownloadName | src/App.tsx:290 | the name is `cropped-image-` followed by the decimal 1-based number, which reads back as idx+1 |
| Export.EntryNameInjective | src/App.tsx:97 | different crop numbers give different entry names |
| Export.SingleDownload | src/App.tsx:283-296 | a download happens iff the canvas is found; its name plus `.jpg` is the archive entry name of the same crop |
| Export.DownloadMatchesEntry | src/App.tsx:290 | `cropped-image-<idx+1>` plus `.jpg` is entry idx+1 of the archive |
| Export.ExportedIndices | src/App.tsx:81-98 | the exported positions are 1-based, strictly increasing, each with a found canvas, and every found canvas is among them |
| Export.ZipImages | src/App.tsx:76-105 | the archive is `cropped-images.zip` with folder `cropped-images`; its entries are the names of the found canvases in increasing order |
| Export.EntriesDistinct | src/App.tsx:97 | no two archive entries share a name |
| Export.AllPresentExportsEveryCrop | src/App.tsx:81-98 | with every canvas found, there is one entry per rectangle and entry k is crop k+1 |
| Export.ThreeCropsExample | src/App.tsx:81-103 | three rectangles give exactly `cropped-image-1.jpg`, `-2.jpg`, `-3.jpg`, in order |
| Export.MissingCanvasSkipped | src/App.tsx:85-98 | a missing second canvas gives entries 1 and 3, without renumbering |
| AppDraft.Span | src/App.js:95-100 | the draft's rectangle has its left and top at the raw anchor and its right and bottom edges at the pointer relative to the image origin |
| AppDraft.Candidate | src/App.js:109-115 | the drawn rectangle exists exactly while dragging and is the span from the raw anchor to the cursor |
| AppDraft.DraftStep | src/App.js:88-106 | a release appends exactly one rectangle at the end and nothing else changes the list; only a press starts a drag and a release ends it; the image origin never moves |
| AppDraft.DraftRunGrowsByReleases | src/App.js:93-102 | after any sequence of events the list has grown by exactly the number of releases, with earlier rectangles kept in front |
| AppDraft.ClickCommitsDegenerateRect | src/App.js:93-101 | a click without movement still appends a rectangle, with extents minus the image origin |
| AppDraft.ReleaseAtCursorCommitsCandidate | src/App.js:93-115 | releasing at the cursor appends exactly the drawn rectangle |
| AppDraft.DraftVersusCurrent | src/App.js:95-100 | against App.tsx, for equal event coordinates, which are the same point only on an unscrolled page (the draft reads client coordinates, App.tsx page coordinates): the draft's rectangle is shifted by the image origin and narrower and shorter by it; the two agree when the origin is zero |
| AppDraft.Cutter.constructor | src/App.js:23-33 | the draft's initial state |
| AppDraft.Cutter.OnMouseDown | src/App.js:88-92 | sets dragging and records the raw client anchor |
| AppDraft.Cutter.OnMouseUp | src/App.js:93-102 | clears dragging and appends exactly one rectangle, keeping earlier ones |
| AppDraft.Cutter.OnMouseMove | src/App.js:103-106 | records the cursor only |
| AppDraft.Cutter.UpdateSize | src/App.js:39-46 | copies the rendered size and offsets when the element exists; otherwise leaves them unchanged |

## Left out

- React scheduling is not modelled. Handlers read the state of the last render, the ratios lag one render behind the metrics, and `setRects` after the in-place `splice` passes the same array, which may not re-render. Each handler here runs on the latest state.
- Konva drawing, the dashed stroke style, the remove-button positions and the drawer toggle are presentation.
- The file picker, `URL.createObjectURL` and the `imageSrc` state are foreign I/O.
- `toDataURL`, `fetch(...).blob()`, `new File`, `generateAsync`, `saveAs` and the anchor click are asynchronous browser and library calls. Only the names are modelled. Whether a crop's canvas is found is an input.
- The `if (folder)` guard in `zipImagesAndDownload` is not modelled: JSZip's `folder` always returns a folder.
- Window resize listeners and `document.querySelector` are environment I/O. The image element is an `Option` input to `UpdateSize`.
- Coordinates are `int` and ratios are `real`. Floating point rounding, Infinity and NaN are not modelled.
- Geometry.Ratio: requires a positive rendered size, where the source divides anyway and gets Infinity or NaN.
- App.Cutter.UpdateRatios: requires a positive rendered width and height, for the same reason.
- Export.ZipImages: the number of crops is taken once, when the export starts. The source re-reads `rects.length` after each `await`, and the remove button splices that same array in place, so a removal during an export ends the loop early and drops the last crops rather than the removed one. This interleaving is not modelled.

## Findings

| source | as written | input that shows it | evidently intended | confidence | as-written member | corrected member |
|---|---|---|---|---|---|---|
| src/App.tsx:141-147 | the `reduce` returns 200 or the last height plus 15; the last height counts only if it beats the running value, which already includes the 15 padding, and otherwise the result resets to 200 | heights 300 then 310 give 200, although the drawer shows crops 300 and 310 pixels tall | the tallest height plus 15, and at least 200 | medium, not executed | Drawer.DrawerHeightIgnoresEarlierTallRect | Drawer.IntendedDrawerHeight |

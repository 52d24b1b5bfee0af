# Rooftop studio designer — a Dafny model of its core

The application lets a user describe a small rooftop studio (area, required zones, style,
constraints). In manual mode the user also arranges furniture blocks on a floor-plan
canvas. It then asks a remote text model for a design plan and a remote image model for a
rendering. This project models the three parts of that flow that carry logic:

- **The floor-plan editor** (`floor_plan_editor.dfy`, module `FloorPlanEditor`). It is the
  class `Editor`, with the fields `items`, `activeDragId`, `selectedId` and `dragOffset`.
  Its methods are pointer-down, pointer-move, pointer-up, `updateItem`, the rotate and
  resize controls, reset, and the mount effect that seeds the initial layout. They rest on
  pure transforms: the per-item map, the object-spread merge, the zone rule `y < 25` and
  the rotation step `(r + 90) % 360`.
- **The design-service client** (`gemini_service.dfy`, module `GeminiService`):
  - the plan prompt's layout description: items split by zone in their original order,
    positions classified by fixed thresholds;
  - the image prompt's layout: a stable sort of a copy by depth `y`, with depth and side
    buckets;
  - decoding of the plan reply;
  - extraction of the first inline image as a PNG data URI.

  The two builders are loop methods that accumulate text as the source does. Each is
  proved equal to a specification function, and the properties are proved of those
  functions.
- **The application shell** (`app.dfy`, module `App`):
  - `handleGenerate` as a method of the class `Session`, which runs the plan call, then
    the image call, with their separate failure handling;
  - the display conditions of the result pane as predicates over `ResultState`;
  - `Generated`, the state one generation leaves behind as a function of what the two
    remote services answer.

`types.dfy` (module `Types`) holds the shared value types: `RoomSpecs`, `FloorItem`,
`DesignResponse`, `Option` and `Result`. The source's `label` field of an item is named
`name` here, because `label` is a keyword in Dafny.

The remote services are parameters: total functions from a prompt to a reply or a thrown
failure (`ServiceError`). The JSON parser is a parameter too. Pointer positions arrive as
canvas percentages, so the pixel-to-percentage division is not modelled; `None` stands for
an event that arrives while the canvas element does not exist. Coordinates are `real` and
rotation is `int`. JavaScript's truncating `%` is written out as `JsRem`. JavaScript
truthiness of strings is written out: `""` counts as absent in `!activeDragId`,
`specs.style || …`, `error && …` and `!generatedImageUrl`.

## Model

| member | source | states |
|---|---|---|
| FloorPlanEditor.MapMatching | components/FloorPlanEditor.tsx:75-77 | the mapped list has the same length; each position holds the transformed item if its id matches and the unchanged item otherwise |
| FloorPlanEditor.MoveMatching | components/FloorPlanEditor.tsx:75-77 | `prev.map(item => item.id === activeDragId ? {...} : item)`: every item with the dragged id is moved, the rest kept (definition; stated by MapMatching and MoveRewritesDraggedOnly) |
| FloorPlanEditor.UpdateMatching | components/FloorPlanEditor.tsx:86 | `items.map(item => item.id === id ? { ...item, ...updates } : item)` (definition; stated by MapMatching, UpdateAbsentIdIsIdentity and UpdateIdempotent) |
| FloorPlanEditor.FindById | components/FloorPlanEditor.tsx:89 | `None` exactly when no item has the id; otherwise the first item with that id |
| FloorPlanEditor.Merge | components/FloorPlanEditor.tsx:86 | object spread `{ ...item, ...updates }`: each field given in the update wins, every other field keeps the item's value (definition; its idempotence is UpdateIdempotent) |
| FloorPlanEditor.WidthUpdate | components/FloorPlanEditor.tsx:229 | the width slider's `{ w: … }`: merged into an item it changes the width and nothing else |
| FloorPlanEditor.HeightUpdate | components/FloorPlanEditor.tsx:238 | the height slider's `{ h: … }`: merged into an item it changes the height and nothing else |
| FloorPlanEditor.RotationUpdate | components/FloorPlanEditor.tsx:252 | the rotate button's `{ rotation: … }`: merged into an item it changes the rotation and nothing else |
| FloorPlanEditor.ConnectivityUpdate | components/FloorPlanEditor.tsx:267 | the connectivity select's `{ connectivity: … }`: merged into an item it changes the connectivity and nothing else |
| FloorPlanEditor.ZoneFor | components/FloorPlanEditor.tsx:73 | the drag's zone rule: outdoor iff y < 25 (definition; stated for the moved item by MoveRewritesDraggedOnly) |
| FloorPlanEditor.Moved | components/FloorPlanEditor.tsx:76 | the per-item transform of a move: new x, new y and the zone of the new y, all else kept (definition; stated by MoveRewritesDraggedOnly) |
| FloorPlanEditor.JsRem | components/FloorPlanEditor.tsx:252 | JavaScript's truncating `%`: a = q·n + r for some integer q, with -n < r < n and r taking the sign of the dividend (r >= 0 for a >= 0, r <= 0 for a < 0), which fixes r uniquely |
| FloorPlanEditor.Rotate | components/FloorPlanEditor.tsx:252 | one press of the rotate button, `(r + 90) % 360` with JavaScript's `%` (definition; its properties are the three Rotate lemmas) |
| FloorPlanEditor.MoveRewritesDraggedOnly | components/FloorPlanEditor.tsx:68-77 | a move keeps length and order and leaves every other item equal; the dragged item gets the new x and y and is outdoor iff y < 25 (y = 25 is indoor); size, rotation, connectivity, label, colour and icon are kept |
| FloorPlanEditor.UpdateAbsentIdIsIdentity | components/FloorPlanEditor.tsx:85-87 | `updateItem` with an id no item carries leaves the list unchanged |
| FloorPlanEditor.UpdateIdempotent | components/FloorPlanEditor.tsx:85-87 | applying the same partial update twice equals applying it once |
| FloorPlanEditor.RotateClosedOnQuarterTurns | components/FloorPlanEditor.tsx:252 | the rotate step maps 0, 90, 180 and 270 to the next quarter turn, with 270 going to 0 |
| FloorPlanEditor.RotateFourTimes | components/FloorPlanEditor.tsx:252 | four presses return any angle in [0, 360) to itself |
| FloorPlanEditor.RotateRange | components/FloorPlanEditor.tsx:252 | from a non-negative angle, one press lands in [0, 360) |
| FloorPlanEditor.InitialItemsDistinct | components/FloorPlanEditor.tsx:13-21 | the initial layout has seven items with pairwise distinct ids |
| FloorPlanEditor.InitialItems | components/FloorPlanEditor.tsx:13-21 | `INITIAL_ITEMS`: the seven starting blocks with their ids, types, labels, positions, sizes, rotations, connectivity, zones, colours and icons (definition; InitialItemsDistinct and InitialItemsInOutdoorBand state its properties) |
| FloorPlanEditor.InitialItemsInOutdoorBand | components/FloorPlanEditor.tsx:18-19 | the initial desk (y 10) and bath (y 5) are indoor items lying in the band y < 25 that a drag classifies as outdoor |
| FloorPlanEditor.Editor.Dragging | components/FloorPlanEditor.tsx:59 | the guard `!activeDragId` negated: a drag is active only for a present, non-empty id (definition) |
| FloorPlanEditor.Editor.SelectedItem | components/FloorPlanEditor.tsx:89 | `items.find(i => i.id === selectedId)`: the first item with the selected id, none without a selection (via FindById, whose contract states it) |
| FloorPlanEditor.Editor.constructor | components/FloorPlanEditor.tsx:23-33 | on mount, no drag, no selection and a zero offset; an empty item list is replaced by the initial layout |
| FloorPlanEditor.Editor.PointerDown | components/FloorPlanEditor.tsx:35-56 | always selects the item and never touches items; without the canvas it returns early with drag and offset unchanged; otherwise the offset is pointer minus item position and the item becomes the dragged one |
| FloorPlanEditor.Editor.PointerMove | components/FloorPlanEditor.tsx:58-78 | with no active drag (null or empty id), or no canvas, items are unchanged; otherwise the items carrying the dragged id move to pointer minus offset, with the zone of the new y |
| FloorPlanEditor.Editor.PointerUp | components/FloorPlanEditor.tsx:80-83 | ends the drag; selection, offset and items are outside its frame and stay |
| FloorPlanEditor.Editor.UpdateItem | components/FloorPlanEditor.tsx:85-87 | items become the merge of the partial update into every item with that id |
| FloorPlanEditor.Editor.UpdateSelected | components/FloorPlanEditor.tsx:225-273 | a width, height or connectivity edit applies to the selected item, found by id; without a selected item nothing changes |
| FloorPlanEditor.Editor.RotateSelected | components/FloorPlanEditor.tsx:252 | the selected item's rotation becomes `(r + 90) % 360`; without a selected item nothing changes |
| FloorPlanEditor.Editor.Reset | components/FloorPlanEditor.tsx:122 | items become the initial layout, whose ids are distinct |
| FloorPlanEditor.DragInPlace | components/FloorPlanEditor.tsx:51-54 | grab point preserved: moving the pointer back to where the item was grabbed leaves its position, size, rotation and id as they were; the zone becomes that of its (unchanged) y |
| FloorPlanEditor.ReleaseThenMove | components/FloorPlanEditor.tsx:59 | after pointer-up a pointer-move changes no item, and the selection survives the release |
| GeminiService.DecimalRoundTrip | services/geminiService.ts:22 | the decimal spelling of a rotation reads back as the same number |
| GeminiService.IntToDecimal | services/geminiService.ts:22 | the `${item.rotation}` hole: a rotation spelled in decimal, with a minus sign when negative (definition; DecimalRoundTrip states that the digits read back) |
| GeminiService.IndoorLine | services/geminiService.ts:19-22 | the indoor line `- label: Located at <depth> <side>. Rotated <r>°. Structure: <connectivity>.` with the 50/50 thresholds and the three connectivity phrases (definition; thresholds in PlanPositionThresholds) |
| GeminiService.VerticalPosition | services/geminiService.ts:19 | `item.y < 50 ? "rear/window side" : "front/entrance side"` (definition; PlanPositionThresholds states the threshold) |
| GeminiService.HorizontalPosition | services/geminiService.ts:20 | `item.x < 50 ? "left" : "right"` (definition; PlanPositionThresholds states the threshold) |
| GeminiService.StructurePhrase | services/geminiService.ts:21 | enclosed gives "fully enclosed room", partition "semi-private with partition", and open "open plan" (definition) |
| GeminiService.OutdoorLine | services/geminiService.ts:29 | the outdoor line: label, the fixed artificial-grass setting and the rotation (definition) |
| GeminiService.InZone | services/geminiService.ts:13-14 | the filter is no longer than its input and keeps only items of the zone |
| GeminiService.InZoneAppend | services/geminiService.ts:13-14 | filtering a concatenation is concatenating the filters, so the original relative order is kept |
| GeminiService.ZonePartition | services/geminiService.ts:13-14 | the indoor and outdoor groups together are a permutation of the items |
| GeminiService.InZoneEmptyIff | services/geminiService.ts:16 | a group is empty exactly when no item has its zone |
| GeminiService.WriteLines | services/geminiService.ts:18-23 | the `forEach` with `+=` appends one line per item, in item order |
| GeminiService.WriteGroup | services/geminiService.ts:16-24 | a group's header is written only when the group has items, followed by its lines |
| GeminiService.PlanLayout | services/geminiService.ts:9-31 | the layout description as lines: nothing without items, else the introduction, the indoor group and the outdoor group, each group a header and one line per item only when it has items (definition; its properties are the plan-layout lemmas below) |
| GeminiService.PlanLayoutDescription | services/geminiService.ts:7-31 | `layoutDescription` as text: the concatenation of the rendered lines of PlanLayout (definition; BuildPlanLayout is proved equal to it) |
| GeminiService.BuildPlanLayout | services/geminiService.ts:7-32 | the accumulated description equals the rendering of the layout lines `PlanLayout` |
| GeminiService.PlanLayoutRendered | services/geminiService.ts:10-31 | the rendered layout is the introduction, then the indoor group's text, then the outdoor group's text |
| GeminiService.PlanLayoutListsEveryItemOnce | services/geminiService.ts:13-31 | the items described are the indoor items in their original order followed by the outdoor items in their original order |
| GeminiService.PlanLayoutIsPermutation | services/geminiService.ts:13-31 | every input item is described exactly once |
| GeminiService.PlanLineCount | services/geminiService.ts:10-31 | the description has one introduction line, one line per item, and one header per non-empty group |
| GeminiService.HeaderIffGroupNonEmpty | services/geminiService.ts:16-17 | a zone's header appears iff some item has that zone |
| GeminiService.PlanLayoutOrder | services/geminiService.ts:10-31 | the introduction comes first and only once, and no indoor line follows an outdoor line |
| GeminiService.ItemLinesUnderTheirHeader | services/geminiService.ts:16-30 | each item line follows its zone's header and describes an item of that zone |
| GeminiService.PlanLayoutEmptyIffNoItems | services/geminiService.ts:9 | the description is empty iff items are absent or empty, and then the prompt shows the placeholder instead |
| GeminiService.LayoutSection | services/geminiService.ts:44 | `layoutDescription \|\| "Optimized by architect based on constraints."`: the empty description is replaced by the placeholder (definition; stated by PlanLayoutEmptyIffNoItems) |
| GeminiService.Join | services/geminiService.ts:41 | `features.join(', ')`: the parts with the separator between consecutive ones (definition) |
| GeminiService.PlanPositionThresholds | services/geminiService.ts:19-20 | "left" iff x < 50; "rear/window side" iff y < 50; so 49 and 50 fall on opposite sides |
| GeminiService.ImageLine | services/geminiService.ts:102-107 | the image line: label, type, depth and side buckets, zone context, rotation and enclosure phrase (definition; thresholds in ImageBucketThresholds) |
| GeminiService.DepthBucket | services/geminiService.ts:102 | "far background" below 30, "mid-ground" below 60, else "foreground" (definition; ImageBucketThresholds states the thresholds) |
| GeminiService.SideBucket | services/geminiService.ts:103 | "left" below 33, "center" below 66, else "right" (definition; ImageBucketThresholds states the thresholds) |
| GeminiService.ZoneContext | services/geminiService.ts:104 | outdoor gives "OUTSIDE on the grass terrace", indoor "INSIDE the studio" (definition) |
| GeminiService.EnclosurePhrase | services/geminiService.ts:105 | enclosed gives "inside a walled room", partition "behind a partition", and open "in open space" (definition) |
| GeminiService.InsertByY | services/geminiService.ts:98 | inserting adds exactly one element, and the head is the inserted item or the old head |
| GeminiService.InsertByYSorted | services/geminiService.ts:98 | inserting into a list sorted by y keeps it sorted |
| GeminiService.InsertByYPermutes | services/geminiService.ts:98 | inserting adds exactly the inserted item to the multiset |
| GeminiService.SortByY | services/geminiService.ts:98 | the sorted copy is in non-decreasing y and is a permutation of the input |
| GeminiService.InsertByYTies | services/geminiService.ts:98 | an inserted item goes before the items with the same y |
| GeminiService.SortByYStable | services/geminiService.ts:98 | the sort is stable: for every y, the items with that y keep their input order |
| GeminiService.BuildImageLayout | services/geminiService.ts:92-116 | the accumulated image layout is the intro plus one line per item in sorted order, or the fixed four-line layout when there are no items |
| GeminiService.ImageLayout | services/geminiService.ts:92-116 | `layoutPrompt`: the fixed four-line layout without items, else the introduction and one line per item of the depth-sorted copy (definition; BuildImageLayout is proved equal to it, SortByY and SortByYStable state the order) |
| GeminiService.DepthOrderExample | services/geminiService.ts:98-100 | items at y 70, 10 and 40 are described in the order 10, 40, 70 |
| GeminiService.ImageBucketThresholds | services/geminiService.ts:102-103 | "far background" iff y < 30; "mid-ground" iff 30 <= y < 60; "left" iff x < 33; "center" iff 33 <= x < 66 |
| GeminiService.StyleField | services/geminiService.ts:128 | `specs.style \|\| "Modern Contemporary"` (definition; stated by ImagePromptIgnoresConcept) |
| GeminiService.PlanPromptOf | services/geminiService.ts:34-53 | the plan prompt's holes: total area, the features joined with ", ", the constraints and the layout section (definition; GenerateDesignPlan is proved to send it, PlanLayoutEmptyIffNoItems and ManualModeSendsLayout state its layout) |
| GeminiService.ImagePromptOf | services/geminiService.ts:118-131 | the image prompt's holes: total area, the image layout and the style field; the concept argument is not used (definition; ImagePromptIgnoresConcept states it) |
| GeminiService.ImagePromptIgnoresConcept | services/geminiService.ts:91-128 | the image prompt does not depend on the concept name, and its style falls back to "Modern Contemporary" exactly when the style is empty |
| GeminiService.DecodePlan | services/geminiService.ts:85-88 | a present, non-empty reply text yields exactly what the parser makes of it; a missing or empty text fails the plan |
| GeminiService.ResponseParts | services/geminiService.ts:145 | `response.candidates?.[0]?.content?.parts \|\| []`: the first candidate's parts, empty when any link of the chain is missing (definition) |
| GeminiService.FirstImage | services/geminiService.ts:145-151 | the first part with inline data as a PNG data URI, else "no image" (definition; its specification is FirstImageSpec) |
| GeminiService.FirstImageSpec | services/geminiService.ts:145-151 | the image is the data URI of the first part carrying inline data; the call fails with "no image" exactly when no part carries any |
| GeminiService.FirstImageIsDataUri | services/geminiService.ts:147 | an extracted image URL starts with `data:image/png;base64,` |
| GeminiService.ExtractImage | services/geminiService.ts:145-151 | the early-return loop over the first candidate's parts yields the first inline image, or fails |
| GeminiService.PlanOutcome | services/geminiService.ts:55-88 | what the plan call yields: a remote failure propagates, otherwise the reply is decoded (definition; GenerateDesignPlan is proved equal to it) |
| GeminiService.GenerateDesignPlan | services/geminiService.ts:6-89 | sends the prompt with the layout section and yields the decoded reply; a remote failure propagates |
| GeminiService.ImageOutcome | services/geminiService.ts:133-151 | what the image call yields: a remote failure propagates, otherwise the first inline image (definition; GenerateDesignVisualization is proved equal to it) |
| GeminiService.GenerateDesignVisualization | services/geminiService.ts:91-152 | sends the prompt with the depth-sorted layout and yields the extracted image; a remote failure propagates |
| GeminiService.ImageOutcomeIsDataUri | services/geminiService.ts:145-151 | a successful image call yields a non-empty data URI |
| App.Truthy | App.tsx:120 | a nullable string as a condition: false for null and for `""` (definition) |
| App.DefaultSpecs | App.tsx:11-16 | the starting specifications: 46 square metres, the four required zones, the modern contemporary style and the staircase and sliding-door constraints (definition; Session.constructor states that the session starts with it) |
| App.EmptyDesignPlaceholder | App.tsx:149-157 | the design shown while the plan is pending: "analysing" as concept name, "..." for philosophy and arrangement, empty lists and lighting (definition; LoadingView states when it is shown) |
| App.ActiveItems | App.tsx:32 | `mode === 'manual' ? floorItems : undefined` (definition; HandleGenerate states that both calls receive it) |
| App.ShowsErrorBanner | App.tsx:120 | `error && …` (definition; properties in PaneShowsOneThing) |
| App.ShowsEmptyState | App.tsx:126 | `!designResult && !isLoading && !error` (definition; properties in PaneShowsOneThing) |
| App.ShowsResults | App.tsx:135 | `isLoading \|\| designResult` (definition; properties in PaneShowsOneThing) |
| App.DisplayedDesign | App.tsx:137 | `designResult \|\| emptyDesignPlaceholder` (definition; used by LoadingView, PlanArrivedView and ImageFailureKeepsPlan) |
| App.ShowsImageSpinner | App.tsx:139 | `isLoadingImage = isLoading && !generatedImageUrl`, inside a shown results pane (definition) |
| App.ShowsImage | components/ResultsSection.tsx:17-27 | no spinner and a truthy image URL: the image is drawn (definition) |
| App.ShowsNoImagePlaceholder | components/ResultsSection.tsx:17-30 | no spinner and no truthy image URL: the "no image available" text (definition) |
| App.Generated | App.tsx:24-52 | the state one generation leaves: the generic error when the plan fails, else the plan and the image URL when the image call succeeds; the image call is made with the plan's concept name, which the image prompt does not use, and the same items (definition; HandleGenerate is proved equal to it and the outcome lemmas state its cases) |
| App.PaneShowsOneThing | App.tsx:120-139 | the pane is never blank; the empty state never appears beside the results or the error banner; with results shown, exactly one of spinner, image and "no image" text fills the image area |
| App.LoadingView | App.tsx:25-28 | right after the reset: results with the placeholder design and a spinning image, with no error and no empty state |
| App.PlanArrivedView | App.tsx:36 | the state between the two calls (which Session.HandleGenerate's `renders` proves it passes through) shows the plan with a spinning image area |
| App.PlanFailureShowsError | App.tsx:46-50 | a failed plan ends with the generic error alone: no results, no image, no empty state |
| App.ImageFailureKeepsPlan | App.tsx:39-44 | a failed image leaves the plan shown, no error and the "no image" text |
| App.FullSuccessShowsImage | App.tsx:36-41 | when both calls succeed, the displayed design is the plan and the image URL is the one the image call returned; the image is drawn and there is no error |
| App.AutoModeIgnoresEditor | App.tsx:32 | in automatic mode the outcome does not depend on the editor's items; the plan prompt gets the placeholder and the image prompt gets the fixed layout |
| App.ManualModeSendsLayout | App.tsx:32-35 | in manual mode with items, the plan prompt carries the editor's layout description, which is non-empty |
| App.Session.constructor | App.tsx:10-22 | automatic mode, the default specifications, no items, and nothing loading, generated or failed |
| App.Session.SetMode | App.tsx:77 | the mode toggle sets the mode |
| App.Session.SetSpecs | App.tsx:99 | the input section replaces the specifications |
| App.Session.SetFloorItems | App.tsx:107 | the editor's `setItems` replaces the items |
| App.Session.ShowPlan | App.tsx:36 | the plan is stored and nothing else changes, so during a generation it shows with loading still on |
| App.Session.Begin | App.tsx:25-28 | loading, with error, plan and image cleared |
| App.Session.HandleGenerate | App.tsx:24-52 | the resulting state is `Generated` of the remote answers, and the loading flag is off after every outcome; the plan call is logged with its arguments, the specifications and the editor's items in manual mode or none in automatic mode; an image call, logged with the specifications, the plan's concept name and the same items, is made only after a successful plan; the pane passes through loading, then (after a successful plan) the plan with the image pending, then the final state |

## Left out

- The remote Gemini calls, the client object and the API key. They are parameters
  (`remote`, `planRemote`, `imageRemote`) that map a prompt to a reply or a thrown failure.
  The model name, response schema and aspect ratio are left out.
- `JSON.parse` of the plan reply is the parameter `parse`. A parse error behaves like any
  other failed plan. Whether the parsed object really has the `DesignResponse` fields is
  not checked, since the source does not check it either.
- GeminiService.PlanPromptOf, GeminiService.ImagePromptOf: the fixed English template
  prose around the interpolated values is not modelled. A prompt is the record of its
  holes. The spelling of `specs.totalArea` and the `features.join(', ')` text are kept as
  values, not as text.
- GeminiService.IntToDecimal spells rotations as integers. The source prints any
  JavaScript number, but rotations only ever come from integer steps.
- FloorPlanEditor.Rotate: rotation is an `int`. A rotation that is not an integer cannot
  arise from the controls and is not modelled.
- The DOM and pointer plumbing is not modelled: `getBoundingClientRect`, pointer
  capture, `preventDefault`, and the floating-point division from pixels to percentages.
  Pointer percentages are inputs, and `real` arithmetic is exact where the source uses
  doubles.
- JSX rendering, icons, CSS classes, the connectivity labels and the tips text are
  presentation only. Of `components/ResultsSection.tsx` only the choice of spinner, image
  or "no image" text is modelled. `components/InputSection.tsx` is not part of this
  model beyond `Session.SetSpecs`.
- Ownership of the items list: in the source, the application owns it and the editor
  replaces it through `setItems`. Here `Editor.items` is the editor's own field and
  `Session.SetFloorItems` is the handover.
- React's batching and asynchronous updates are not modelled. Each handler is a
  sequential method that sees its own writes, and `handleGenerate`'s awaits are sequential
  calls. The states rendered after each step are the ghost `renders` of `Session.HandleGenerate`.
- Sorting happens on a copy. `SortByY` is a pure function of a sequence value, so the
  caller's list cannot change. The in-place sort of the copy is not modelled step by step.
- Logging through `console.error` is not modelled.

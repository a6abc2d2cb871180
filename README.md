# Interior design agent — verified model of the core

This project models the core of the interior design agent in Dafny. The
agent is a web tool in which a designer describes fixtures for a wall
(sinks, mirrors, lights, outlets, windows) and gets a scaled wall elevation.
The model covers:

- **Scale and elevation geometry** (`types/index.ts`, `lib/elevation/renderer.ts`):
  - the 1/2" = 1'-0" drawing scale and the conversions to pixels;
  - canvas sizing;
  - the fixture rectangle with its floor-to-screen Y flip;
  - the whole-foot grid and the colour palette;
  - the full paint sequence of `drawElevation`, as a log of canvas marks;
  - the markup of `generateElevationSVG`.
- **The in-memory store** (`lib/db.ts`): class `Database` with four insertion-ordered tables (JavaScript `Map`s), its create/get/filter/update/delete operations and the sample data it is seeded with.
- **The AI agent endpoint** (`app/api/ai-agent/route.ts`):
  - the request checks of `POST`;
  - the keyword-based fallback parser `handleManualParsing`, including the two regular expressions it applies;
  - `processAIResponse`, which stores what a language model proposed.
- **The fixture creation endpoint** (`app/api/fixtures/route.ts`): the required-field check, then one `createFixture`.
- **Small lookups and clamps**: the fixture list's colour classes (`getFixtureColor`), which also back the guide tab's legend, and the content panel's canvas-width clamp and change threshold.

Modules:

- `Types`: the records and the scale.
- `OrderedMaps`: JavaScript `Map`.
- `Db`: the store.
- `Renderer`: the pure geometry.
- `Canvas2D`: the slice of the canvas 2D context that is used, as a class whose painting calls append marks to a log.
- `Elevation` and `ElevationFacts`: the drawing methods and what the drawing shows.
- `ElevationSvg` and `ElevationSvgFacts`: the SVG document and its agreement with the canvas.
- `InstructionMatch`: the two regular expressions.
- `AiAgent`, `FixturesRoute`, `FixtureList`, `ContentPanel`: the remaining components.
- `JsText` and `JsObjects`: the JavaScript string and object-lookup semantics the code relies on.
- `Wrappers` and `Sequences`: helpers.

Numbers are Dafny `real`s and `Math.round(x)` is `floor(x + 1/2)`.

Some inputs come from outside the program, so the model takes them as parameters:

- `crypto.randomUUID()` is a stream `uuid: nat -> string` held by the store, together with a count of ids drawn.
- `new Date()` is a `now` argument for a single create. Where one request creates several records (seeding, and the language model's fixtures in `AiAgent.Post`), a `clock` is read once per create.
- Font metrics are a `measureText` function.
- JavaScript's number-to-string conversion is a `num` function.
- The language model's answer and the API key are arguments of `AiAgent.Post`.

## Model

| member | source | states |
|---|---|---|
| Types.InchesAndFeetAgree | types/index.ts:61-68 | twelve real inches and one real foot give the same length on the drawing |
| Types.ConversionsAreLinear | types/index.ts:61-68 | both drawing conversions send 0 to 0, are additive and strictly increasing |
| Types.EightFeetIsFourDrawingInches | types/index.ts:58-63 | at 0.5 drawing inches per foot an 8-foot wall (96 inches) is 4 inches on the drawing |
| OrderedMaps.Empty | lib/db.ts:5-8 | a new `Map` is valid and holds no entries |
| OrderedMaps.Get | lib/db.ts:102-104 | `get` finds a value exactly when the key is present, and it is the stored value |
| OrderedMaps.Set | lib/db.ts:98 | `set` keeps the table valid, stores the value, changes no other key, appends a new key to the order and keeps a present key's place |
| OrderedMaps.Delete | lib/db.ts:123-125 | `delete` keeps the table valid, removes the key from the entries and the order, and changes no other key |
| OrderedMaps.Values | lib/db.ts:106-108 | `Array.from(values())` lists one value per key, in insertion order |
| OrderedMaps.ValuesOfSetNew | lib/db.ts:98 | setting a new key appends its value to the end of `values()` |
| OrderedMaps.ValuesOfSetPresent | lib/db.ts:119 | setting a present key replaces its value at the same position of `values()` |
| Db.NewFixture | lib/db.ts:92-97 | a created fixture carries the chosen id, the caller's wall and the creation instant as both timestamps |
| Db.ApplyPatch | lib/db.ts:114-118 | the merge `{...fixture, ...data, updatedAt}`: each supplied field wins, each absent one is kept, and id, wall and creation time never change |
| Db.ApplyPatchIdempotent | lib/db.ts:114-118 | applying the same update twice at the same instant is applying it once |
| Db.Filter | lib/db.ts:106-108 | `filter` keeps exactly the elements the predicate accepts and never lengthens the list |
| Db.FilterConcat | lib/db.ts:106-108 | filtering distributes over concatenation, so filtered lists keep insertion order |
| Db.Database.constructor | lib/db.ts:4-8 | the store starts with four empty tables and no uuid drawn |
| Db.Database.TakeId | lib/db.ts:94 | `options.id ?? crypto.randomUUID()`: the requested id when there is one, else the next uuid, which is then used up |
| Db.Database.CreateClient | lib/db.ts:11-23 | the client is stored under the chosen id, returned, and found again by `getClient` |
| Db.Database.GetClient | lib/db.ts:25-27 | a client is returned exactly when its id is stored |
| Db.Database.GetAllClients | lib/db.ts:29-31 | exactly the stored clients are listed |
| Db.Database.CreateRoom | lib/db.ts:34-46 | the room is stored under the chosen id, returned, and found again by `getRoom` |
| Db.Database.GetRoom | lib/db.ts:48-50 | a room is returned exactly when its id is stored |
| Db.Database.GetRoomsByClient | lib/db.ts:52-54 | exactly the stored rooms of that client are listed |
| Db.Database.CreateWall | lib/db.ts:57-69 | the wall is stored under the chosen id, returned, and found again by `getWall` |
| Db.Database.GetWall | lib/db.ts:71-73 | a wall is returned exactly when its id is stored |
| Db.Database.GetWallsByRoom | lib/db.ts:75-77 | exactly the stored walls of that room are listed |
| Db.Database.GetWallWithFixtures | lib/db.ts:79-85 | nothing for an unknown wall; otherwise the wall's own fields plus `getFixturesByWall(id)` |
| Db.Database.CreateFixture | lib/db.ts:88-100 | the fixture is stored under the chosen id (overwriting an entry with that id), returned, and found again by `getFixture`; only the fixture table and the uuid count change |
| Db.Database.GetFixture | lib/db.ts:102-104 | a fixture is returned exactly when its id is stored |
| Db.Database.GetFixturesByWall | lib/db.ts:106-108 | exactly the stored fixtures on that wall are listed |
| Db.Database.UpdateFixture | lib/db.ts:110-121 | an unknown id gives no result and changes nothing; a known one is replaced by the merge in its place in the order, and only the fixture table changes |
| Db.Database.DeleteFixture | lib/db.ts:123-125 | true exactly when the id was stored; afterwards it is gone and no other entry changes |
| Db.FixturesByWallAfterCreate | lib/db.ts:98 | creating a fixture under a new id appends it to its wall's list and leaves other walls' lists unchanged |
| Db.StoreAllAppends | lib/db.ts:98 | setting fixtures whose ids are new and pairwise different appends them to `values()` in order |
| Db.SampleFixtureIdsDistinct | lib/db.ts:136-141 | the four sample fixture ids are pairwise different |
| Db.SampleFixtureData | lib/db.ts:171-224 | the four sample fixtures are all placed on the sample wall |
| Db.SampleFixturesListed | lib/db.ts:171-224 | storing the four sample fixtures in a fresh table lists exactly them, in order, with the ids sink, mirror, light, outlet, whatever the clock reads |
| Db.CreateListed | lib/db.ts:88-100 | one `createFixture` with a requested id adds exactly that fixture after those already stored and draws no uuid |
| Db.CreateSampleFixtures | lib/db.ts:171-224 | the four sample creations store exactly the sample fixtures, in order, without drawing a uuid |
| Db.Database.OnlyRoomListed | lib/db.ts:52-54 | when the rooms table holds one room, that client's room list is exactly that room |
| Db.Database.OnlyWallListed | lib/db.ts:75-77 | when the walls table holds one wall, that room's wall list is exactly that wall |
| Db.InitializeSampleData | lib/db.ts:132-227 | after seeding, `wall-sample` is 8' x 8' in room `room-sample` of client `client-sample`, and its fixture list is exactly the sink, mirror, light and outlet, in that order; the store then lists that client, that room as the client's only room, that wall as the room's only wall, and a fixtures table holding exactly the four sample fixtures; each of the seven creates is stamped with its own clock read |
| Renderer.InchesAndFeetPixelsAgree | lib/elevation/renderer.ts:10-18 | twelve inches and one foot give the same number of pixels |
| Renderer.PixelConversionsAreLinear | lib/elevation/renderer.ts:10-18 | at a positive scale both pixel conversions send 0 to 0, are additive and strictly increasing |
| Renderer.InchesToPixelsInverse | lib/elevation/renderer.ts:15-18 | at a positive scale `px * 24 / p` is the exact inverse of `inchesToPixels` |
| Renderer.Round | lib/elevation/renderer.ts:33-34 | `Math.round` gives the integer within half of its argument, halves rounded up |
| Renderer.CalculateCanvasDimensions | lib/elevation/renderer.ts:21-37 | pixels per inch is the target width over the drawing width; the width is the rounded target and the height the rounded target scaled by the wall's height-to-width ratio; the target defaults to 800 |
| Renderer.RoundWhole | lib/elevation/renderer.ts:33-34 | rounding leaves whole numbers alone |
| Renderer.AspectFidelity | lib/elevation/renderer.ts:21-37 | with a whole target width the canvas is exactly that wide, and its height is within half a pixel of the wall's proportion |
| Renderer.SampleWallDimensions | lib/elevation/renderer.ts:21-37 | the 8' x 8' wall at the default width is 800 x 800 pixels at 200 pixels per drawing inch |
| Renderer.ColorForTable | lib/elevation/renderer.ts:40-49 | a listed type, in any case, gets its own colour and every other type the grey `#9B9B9B`; no other colour is ever returned |
| Renderer.ColorForIgnoresCase | lib/elevation/renderer.ts:117 | the colour does not depend on the case of the type |
| Renderer.ColorForAsWrittenAgrees | lib/elevation/renderer.ts:117 | the lookup as written agrees with the table lookup unless the lower-cased type names a member of `Object.prototype` |
| Renderer.ColorForAsWrittenInherits | lib/elevation/renderer.ts:117 | as written, type "constructor" gets the inherited `Object` constructor instead of a colour |
| Renderer.FixtureRect | lib/elevation/renderer.ts:107-114 | the rectangle's left edge and size are the fixture's position and size in pixels; its bottom edge lies `positionY` above the wall's bottom |
| Renderer.FixtureRectFlipsY | lib/elevation/renderer.ts:112-114 | `positionY` 0 puts the bottom edge on the bottom of the wall, and raising a fixture moves its rectangle up by the same distance in pixels |
| Renderer.SampleSinkRect | lib/elevation/renderer.ts:107-114 | the sample sink on the sample wall at 200 px per inch sits at (200, 433 1/3) and is 200 x 66 2/3 pixels |
| Renderer.InteriorFeet | lib/elevation/renderer.ts:75 | the loop `for (feet = 1; feet < length; feet++)` visits exactly the whole feet strictly inside the length |
| Renderer.GridLinesAreInterior | lib/elevation/renderer.ts:75-76 | an interior grid line lies strictly inside the exact wall length, never on its ends |
| Renderer.FixtureBottomNearGridLine | lib/elevation/renderer.ts:84-85 | grid lines are measured from the rounded canvas height, so a fixture whose bottom is a whole number of feet up is within half a pixel of that foot's line |
| Renderer.TopGridLineOnCanvasEdge | lib/elevation/renderer.ts:84-85 | as written, an 8' x 7.001' wall at the default width gets a 700-pixel canvas whose 7-foot grid line is drawn at y = 0, on the top edge |
| Renderer.WallGridLinesInsideCanvas | lib/elevation/renderer.ts:84-85 | measured from the exact wall height, an interior line is strictly below the canvas's top edge, above its bottom edge whenever a foot spans more than half a pixel, and exactly on the bottom of a fixture that many feet up |
| JsText.ToLower | app/api/ai-agent/route.ts:152 | the ASCII part of `toLowerCase`: each character is replaced by its ASCII lower-case form, and nothing else changes |
| JsText.ToLowerLowers | app/api/ai-agent/route.ts:152 | the result has no upper-case letter, and a lower-case string is unchanged |
| JsText.ToLowerIdempotent | lib/elevation/renderer.ts:117 | lower-casing twice is lower-casing once |
| JsText.ContainsAt | app/api/ai-agent/route.ts:160 | `includes(t)` holds exactly when `t` occurs at some index |
| JsObjects.LowerCasePrototypeMembers | components/elevation/FixtureList.tsx:23 | a lower-cased key can reach only two prototype members, "constructor" and "__proto__" |
| JsObjects.GetIsOwnExceptPrototype | components/elevation/FixtureList.tsx:23 | `table[key]` reads only own entries unless the key names a prototype member, which an absent key then yields |
| Elevation.DrawElevation | lib/elevation/renderer.ts:51-99 | paints exactly background, vertical grid, horizontal grid, each fixture in list order, then the captions, and leaves the stated style and path |
| Elevation.DrawBackground | lib/elevation/renderer.ts:58-72 | clears, fills white and strokes the 2-pixel black border over the whole canvas, then sets the grid style |
| Elevation.DrawVerticalGrid | lib/elevation/renderer.ts:74-81 | strokes one vertical line per interior foot, left to right |
| Elevation.DrawHorizontalGrid | lib/elevation/renderer.ts:83-90 | strokes one horizontal line per interior foot, bottom to top |
| Elevation.DrawFixtures | lib/elevation/renderer.ts:92-95 | paints each fixture's marks in list order and leaves the last fixture's style |
| Elevation.DrawFixture | lib/elevation/renderer.ts:101-167 | paints the fixture's box, label and size captions, and restores the transform stack |
| Elevation.DrawFixtureBox | lib/elevation/renderer.ts:116-126 | fills the rectangle with the translucent type colour and outlines it in the type colour, 2 px wide |
| Elevation.DrawFixtureName | lib/elevation/renderer.ts:128-151 | a white backing box as wide as the measured name plus 4 px, 16 px tall, then the name centred on the fixture |
| Elevation.DrawFixtureSizes | lib/elevation/renderer.ts:153-166 | the width 5 px above the box, and the height rotated a quarter turn back 5 px to its left |
| Elevation.DrawDimensions | lib/elevation/renderer.ts:169-195 | the width caption under the wall, the rotated height caption and the scale note, on whatever text baseline was in force |
| ElevationFacts.VerticalGridMarksLength | lib/elevation/renderer.ts:75-81 | one vertical grid mark per interior foot |
| ElevationFacts.HorizontalGridMarksLength | lib/elevation/renderer.ts:84-90 | one horizontal grid mark per interior foot |
| ElevationFacts.VerticalGridMarkAt | lib/elevation/renderer.ts:75-81 | vertical mark `i` is the gray, half-pixel line `i + 1` feet from the left |
| ElevationFacts.HorizontalGridMarkAt | lib/elevation/renderer.ts:84-90 | horizontal mark `i` is the gray, half-pixel line `i + 1` feet above the bottom |
| ElevationFacts.FixturesMarksLength | lib/elevation/renderer.ts:93-95 | six marks per fixture |
| ElevationFacts.FixturesMarksAt | lib/elevation/renderer.ts:93-95 | fixture `i` owns marks `6i` to `6i + 5`, in list order |
| ElevationFacts.ElevationMarksLength | lib/elevation/renderer.ts:51-99 | the picture is 3 background marks, one per grid line, six per fixture and three captions |
| ElevationFacts.ElevationShowsFixture | lib/elevation/renderer.ts:108-126 | each fixture is filled and outlined exactly over its rectangle in its colour, after every grid line |
| ElevationFacts.VerticalGridInsideWall | lib/elevation/renderer.ts:75-81 | every vertical line is strictly inside the wall's width and spans the canvas height |
| ElevationFacts.HorizontalGridInsideWall | lib/elevation/renderer.ts:84-90 | every horizontal line lies strictly below the exact top of the wall and above the canvas bottom, and spans the canvas width; rounding can still put one on the canvas's top edge (see Findings) |
| ElevationFacts.HeightLabelPlacement | lib/elevation/renderer.ts:161-166 | a fixture's height label reads upwards with its anchor 5 px left of the fixture, halfway up |
| ElevationFacts.CaptionBaselineDependsOnFixtures | lib/elevation/renderer.ts:176-182 | the wall captions sit on the default baseline when the wall has no fixtures and on `middle`, left by the last fixture, otherwise |
| ElevationFacts.HeightCaptionLeftOfCanvas | lib/elevation/renderer.ts:185-188 | the wall-height caption is anchored 20 px left of the canvas's left edge |
| ElevationSvg.GenerateElevationSvg | lib/elevation/renderer.ts:203-249 | the string is the markup of the header, background, grid lines, fixtures and width caption, then the closing tag, in that order |
| ElevationSvg.VerticalGridSvg | lib/elevation/renderer.ts:215-218 | one line element per interior foot of width, left to right |
| ElevationSvg.HorizontalGridSvg | lib/elevation/renderer.ts:220-223 | one line element per interior foot of height, bottom to top |
| ElevationSvg.FixturesSvg | lib/elevation/renderer.ts:226-240 | a box and a name element per fixture, in list order |
| ElevationSvg.SvgDocumentParts | lib/elevation/renderer.ts:209-246 | the document is the concatenation of the markup of each part of the drawing |
| ElevationSvgFacts.VerticalLinesLength | lib/elevation/renderer.ts:215-218 | as many vertical lines as interior feet |
| ElevationSvgFacts.HorizontalLinesLength | lib/elevation/renderer.ts:220-223 | as many horizontal lines as interior feet |
| ElevationSvgFacts.VerticalLineAt | lib/elevation/renderer.ts:215-218 | vertical line `i` is `i + 1` feet from the left and spans the canvas height |
| ElevationSvgFacts.HorizontalLineAt | lib/elevation/renderer.ts:220-223 | horizontal line `i` is `i + 1` feet above the bottom and spans the canvas width |
| ElevationSvgFacts.SvgVerticalGridMatchesCanvas | lib/elevation/renderer.ts:215-218 | each SVG vertical line has the endpoints of the canvas line with the same index |
| ElevationSvgFacts.SvgHorizontalGridMatchesCanvas | lib/elevation/renderer.ts:220-223 | each SVG horizontal line has the endpoints of the canvas line with the same index |
| ElevationSvgFacts.SvgFixtureIsCanvasRect | lib/elevation/renderer.ts:227-236 | a fixture's SVG box is the canvas rectangle in the canvas colour, with its name at the centre |
| ElevationSvgFacts.SvgElementsLength | lib/elevation/renderer.ts:209-246 | two elements per fixture between the grid and the width caption |
| ElevationSvgFacts.SvgFixtureAt | lib/elevation/renderer.ts:226-240 | fixture `i`'s box and name come right after the grid and two elements per earlier fixture |
| ElevationSvgFacts.SvgMatchesCanvas | lib/elevation/renderer.ts:227-236 | fixture `i`'s SVG box has exactly the rectangle and colours the canvas fills and strokes for it |
| ElevationSvgFacts.SvgFraming | lib/elevation/renderer.ts:209-248 | whatever each element's markup, the document opens with the header's and closes with the closing tag's |
| ElevationSvgFacts.SvgDocumentFraming | lib/elevation/renderer.ts:209-248 | the document starts with the `<svg>` header sized to the drawing and ends with `</svg>` |
| FixtureList.FixtureClassTable | components/elevation/FixtureList.tsx:12-24 | a listed type, in any case, gets its class and every other type, "default" included, `bg-gray-500`; the result is always one of the eight classes |
| FixtureList.FixtureClassIgnoresCase | components/elevation/FixtureList.tsx:23 | the class does not depend on the case of the type |
| FixtureList.LegendMatchesList | components/tabs/GuideTab.tsx:30-39 | every legend swatch is the class the list gives a fixture whose type is the swatch's caption |
| FixtureList.LegendCaptionKey | components/tabs/GuideTab.tsx:30-39 | the legend captions lower-case to the table's keys, with "other" for the fallback |
| FixtureList.PalettesAgreeOnKnownKinds | components/elevation/FixtureList.tsx:13-22 | the list and the drawing know the same types, and a type gets the grey class exactly when it gets the grey colour |
| FixtureList.FixtureClassAsWrittenAgrees | components/elevation/FixtureList.tsx:23 | the lookup as written agrees with the table lookup unless the lower-cased type names a prototype member |
| FixtureList.FixtureClassAsWrittenInherits | components/elevation/FixtureList.tsx:23 | as written, type "Constructor" gets the inherited `Object` function instead of a class |
| FixtureList.FixtureClassAsWrittenFailsOn | components/elevation/FixtureList.tsx:23 | as written, the lookup fails exactly for types that lower-case to "constructor" or "__proto__" |
| ContentPanel.ClampWidthBounds | components/layout/ContentPanel.tsx:38-43 | widths under 360 are returned unchanged, others capped at 720, and the result never exceeds the input |
| ContentPanel.ClampWidthIdempotent | components/layout/ContentPanel.tsx:38-43 | clamping twice is clamping once |
| ContentPanel.NextWidthTracksClamp | components/layout/ContentPanel.tsx:45-51 | a zero width is ignored; otherwise the stored width is replaced by the clamped width exactly when they differ by a pixel or more, and always ends within a pixel of it |
| ContentPanel.NextWidthIdempotent | components/layout/ContentPanel.tsx:45-51 | measuring the same width twice changes the stored width at most once |
| ContentPanel.ApplyAllBelowMax | components/layout/ContentPanel.tsx:45-59 | a stored width at most 720 stays at most 720 whatever widths are measured |
| ContentPanel.Panel.constructor | components/layout/ContentPanel.tsx:24-25 | the panel opens on the wall tab with a 600-pixel canvas |
| ContentPanel.Panel.SetActiveTab | components/layout/ContentPanel.tsx:24 | the active tab becomes the chosen one |
| ContentPanel.Panel.ApplyWidth | components/layout/ContentPanel.tsx:45-51 | the stored width becomes the thresholded clamp of the measurement and stays at most 720 |
| ContentPanel.Panel.Measure | components/layout/ContentPanel.tsx:28-59 | nothing happens off the wall tab or without a container; otherwise the container width and then each reported width are applied in order |
| InstructionMatch.RunEnd | app/api/ai-agent/route.ts:182 | a greedy run (`\d+`, `\s*`) ends at the first character outside the class |
| InstructionMatch.SeparatorThenDigit | app/api/ai-agent/route.ts:182 | a separator succeeds only where one of the alternatives occurs, and leads to a digit |
| InstructionMatch.UnitThenSeparator | app/api/ai-agent/route.ts:182 | the optional unit step, when it succeeds, leads to a digit |
| InstructionMatch.FirstMatchIsLeftmost | app/api/ai-agent/route.ts:182 | the scan for a start position finds a match exactly when one exists, and it is the leftmost |
| InstructionMatch.MatchIsLeftmost | app/api/ai-agent/route.ts:199 | `instruction.match` gives the match at the leftmost start position that has one, and nothing only when none does |
| InstructionMatch.NatToDigits | app/api/ai-agent/route.ts:187-188 | the decimal form of a number is a non-empty run of digits |
| InstructionMatch.ParseNatToDigits | app/api/ai-agent/route.ts:187-188 | `parseInt` of a number's decimal digits gives the number back |
| InstructionMatch.NoUnitBeforeBy | app/api/ai-agent/route.ts:182 | no unit alternative can match where "by" starts |
| InstructionMatch.UnitSkipped | app/api/ai-agent/route.ts:182 | when every unit alternative fails, the optional unit group is skipped |
| InstructionMatch.DigitsByDigits | app/api/ai-agent/route.ts:182 | at the start of "W by H…" the dimension pattern captures the digit runs W and H |
| InstructionMatch.DimensionsReadBack | app/api/ai-agent/route.ts:182-188 | the dimension pattern matches the help text's phrasing "W by H" and reads back exactly W and H |
| InstructionMatch.KeywordThenNumbers | app/api/ai-agent/route.ts:199 | after the keyword "at" or "position" and one space, the position pattern captures whatever the number part matches there |
| InstructionMatch.PositionReadBack | app/api/ai-agent/route.ts:199-205 | the position pattern matches the help text's phrasing "at X, Y" and reads back exactly X and Y |
| InstructionMatch.PositionWordsReadBack | app/api/ai-agent/route.ts:199-205 | the position pattern matches "position X and Y" and reads back exactly X and Y |
| AiAgent.DetectKindChain | app/api/ai-agent/route.ts:161-179 | type and name come from the first of sink, mirror, light, outlet, window found in the instruction, else `unknown` / "New Fixture" |
| AiAgent.DetectKindPriority | app/api/ai-agent/route.ts:164-179 | a type is chosen exactly when its keyword occurs and no earlier keyword does |
| AiAgent.FirstMentionedAt | app/api/ai-agent/route.ts:164-179 | from any point of the chain, an entry is chosen exactly when it is mentioned and none before it is |
| AiAgent.FirstMentionedNone | app/api/ai-agent/route.ts:161-179 | the chain falls through to `unknown` exactly when no later keyword occurs |
| AiAgent.DetectKindUnknown | app/api/ai-agent/route.ts:161-179 | type `unknown` exactly when no keyword occurs |
| AiAgent.DefaultSizeChain | app/api/ai-agent/route.ts:189-196 | the default sizes: sink 24x8, mirror 30x36, light 24x6, outlet 4x6, window 36x48, else 24x24 |
| AiAgent.DefaultSizesAreWhole | app/api/ai-agent/route.ts:183-196 | every default size is a positive whole number of inches |
| AiAgent.DefaultElevationChain | app/api/ai-agent/route.ts:206-213 | the default heights: outlet 15, sink 32, mirror 48, light 78, window 42, else 36 |
| AiAgent.ManualFields | app/api/ai-agent/route.ts:216-224 | the fixture is on the requested wall with no product URL and no notes |
| AiAgent.ManualFixtureData | app/api/ai-agent/route.ts:182-224 | the fields derived from an instruction are on the requested wall with no product URL and no notes |
| AiAgent.ManualSize | app/api/ai-agent/route.ts:182-196 | a "W by H" match always sets the size; otherwise the type's default applies; either way the size is whole and non-negative |
| AiAgent.ManualPosition | app/api/ai-agent/route.ts:199-213 | an "at X, Y" match sets a whole non-negative position; otherwise X is half the wall width in inches and Y the type's default height |
| AiAgent.ParseAddInstruction | app/api/ai-agent/route.ts:159-213 | the if-chains reassigning type, name, size and position compute exactly the derived fields |
| AiAgent.HandleManualParsing | app/api/ai-agent/route.ts:150-236 | an add/place/put instruction creates exactly one fixture under the next uuid; any other instruction changes nothing and returns the help text with action `clarify` |
| AiAgent.ManualBodyShape | app/api/ai-agent/route.ts:226-232 | the reply is `add_fixture` with exactly one fixture on the requested wall of a recognised or `unknown` type, or else the help text |
| AiAgent.AiFixtureData | app/api/ai-agent/route.ts:112-122 | each proposed fixture is created on the requested wall with its type and name |
| AiAgent.CreatedFixtures | app/api/ai-agent/route.ts:111-123 | one fixture per proposal, the k-th under the k-th fresh uuid and stamped with the clock's k-th reading, on the requested wall with the proposed type |
| AiAgent.CreateEach | app/api/ai-agent/route.ts:111-123 | the `map` stores the proposals one after the other, in order, drawing one uuid and one clock reading each |
| AiAgent.ProcessAIResponse | app/api/ai-agent/route.ts:108-137 | fixtures are created only for `add_fixture` with a non-empty list; otherwise the action and message are returned and nothing changes |
| AiAgent.AiFixturesAppendedInOrder | app/api/ai-agent/route.ts:110-123 | with fresh, distinct uuids the proposed fixtures are appended to the table in the order given |
| AiAgent.Post | app/api/ai-agent/route.ts:25-51 | 400 when instruction or wallId is missing or empty, 404 for an unknown wall, and no change in either case; otherwise 200 from the fallback parser exactly when the API key is unset, empty or the placeholder, and from the language model's answer otherwise; the manual create reads `clock(0)`, the k-th proposal `clock(k)`; after a 200 the store holds the returned fixture (fallback add, one uuid drawn) or exactly the returned fixtures appended in order (language-model add), and is unchanged when nothing was added |
| FixturesRoute.Validate | app/api/fixtures/route.ts:21-26 | accepted exactly when type, name, width, height and wall are truthy and both positions are present; the accepted record carries the request's fields |
| FixturesRoute.Post | app/api/fixtures/route.ts:4-40 | 400 "Missing required fields" with no change, or 201 with the fixture stored under the next uuid; the wall's existence is never consulted |
| FixturesRoute.ZeroSizeRejected | app/api/fixtures/route.ts:21 | a width or height of 0 is rejected |
| FixturesRoute.ZeroPositionAccepted | app/api/fixtures/route.ts:21 | a position of 0 is accepted and stored as 0 |

## Left out

- Request and response plumbing: `NextRequest`, `NextResponse` and JSON parsing are not modelled. Handlers take an input record and return a status and a body.
- The 500 replies of both routes (the `catch` blocks) are not modelled: nothing in the modelled code throws on the modelled inputs.
- AiAgent.Post: `instruction` and `wallId` are strings or absent in the model (`AgentRequest` holds `Option<string>`). In the program a truthy non-string `instruction` (a number, an object) on the fallback path makes `instruction.toLowerCase()` (app/api/ai-agent/route.ts:152) throw, and the `catch` (app/api/ai-agent/route.ts:99-104) answers 500; a truthy non-string `wallId` finds no wall and gets the 404 the model gives an unknown wall.
- The language model call (`generateObject` and its system prompt) is not modelled. Its structured answer is the `ai` argument of `AiAgent.Post`.
- `exportElevationAsImage` (PNG encoding through `toDataURL`) is not modelled.
- Font metrics: `measureText` is a parameter of the canvas, so the model records the widths it returns without computing them.
- Rotations: only the quarter-turn rotation the renderer uses is modelled. Transforms are translations composed with quarter turns.
- Number formatting: JavaScript's number-to-string conversion in messages and SVG attributes is the parameter `num`, with no properties assumed.
- SVG escaping: fixture names enter the SVG unescaped, as in the source. The model does not interpret the markup.
- Floating point: numbers are exact reals. IEEE rounding, overflow, `NaN` and `Infinity` are not modelled.
- Renderer.CalculateCanvasDimensions: requires a positive wall width, because the source divides by it, so a non-positive width is outside the model. A zero width gives `Infinity` or `NaN` in JavaScript, which the reals cannot express; a negative width gives finite negative sizes in JavaScript, which the model does not cover. Only seeding creates walls here (8' x 8'), so no modelled call is affected.
- JsText.ToLower: maps only the ASCII letters; the Unicode case mapping of `toLowerCase` is not modelled. Some non-ASCII characters lower-case to ASCII: the Kelvin sign U+212A becomes "k", so in the program "SIN\u212A" is detected as a sink and gets the sink's colour and class, where the model treats it as unknown. U+0130 lower-cases to two code units, so the program's `toLowerCase` does not always keep the length. The two regular expressions are unaffected: without the `u` flag, `/i` never matches a non-ASCII character against an ASCII one, which is what ASCII folding gives.
- InstructionMatch.Match: the two regular expressions are reduced to the two numbers they capture. Case-insensitivity uses ASCII lower-casing. The optional trailing unit and closing parenthesis cannot change the captures, so they are not modelled.
- Identifiers and timestamps: `crypto.randomUUID()` is a stream of identifiers and `new Date()` a `now` argument. Both `new Date()` calls of one create are taken to be the same instant. Seeding reads the clock once per create, as `clock(0)` to `clock(6)`, and `AiAgent.Post` stamps the k-th created fixture with `clock(k)`.
- FixturesRoute.Validate: numeric fields are JSON numbers or absent. `parseFloat` gives a number back unchanged, so strings, `null` and other JSON types in those fields are not modelled.
- Db.Database.UpdateFixture: the patch has the declared update type, so it has no `id` or `wallId`. The edit route passes the raw request body, which could carry those fields. That route is not part of this model.
- The module-level singleton `db` and its seeding at server start are not modelled as such. They are `Db.InitializeSampleData` applied to a fresh store.
- ContentPanel.Panel.Measure: the resize observer is a sequence of reported widths. Its registration, the `typeof ResizeObserver` guard and the effect's cleanup are not modelled.
- React components: the rendering of the fixture list, the panel, the tabs and the guide are not modelled. The guide tab's legend is kept only as data to compare with the list's classes.
- Elevation.DrawFixtureBox: draws with the corrected colour lookup. For a type that lower-cases to "constructor" or "__proto__" the program assigns a string that is not a colour, which the canvas ignores, so that fixture is painted in the fill and stroke styles left by earlier drawing; the model paints it grey.
- ElevationSvg.FixturesSvg: writes the corrected colour. For those two types the program writes the prototype member's text as the `fill` and `stroke` attributes instead of `#9B9B9B40` and `#9B9B9B`.
- ElevationFacts.ElevationShowsFixture: holds for the corrected colour only; for those two types the program's fixture keeps the earlier styles.
- ElevationSvgFacts.SvgMatchesCanvas: the colour agreement holds for the corrected colour only; for those two types the program's SVG and canvas colours disagree.
- Drag, hit-testing and position reconciliation in the elevation canvas are not modelled: the source has no such code.

## Findings

| source | as written | input that shows it | evidently intended | confidence | as-written member | corrected member |
|---|---|---|---|---|---|---|
| lib/elevation/renderer.ts:117 | `FIXTURE_COLORS[type.toLowerCase()] \|\| FIXTURE_COLORS.default` looks the key up through `Object.prototype` | type "constructor" gets the `Object` function and "__proto__" gets `Object.prototype`; the canvas ignores the resulting non-colour fill and stroke, keeping earlier styles, and the SVG writes `fill="function Object() { [native code] }40"` (or `[object Object]40`) | every type missing from the table gets the default grey `#9B9B9B` | not executed | Renderer.ColorForAsWrittenInherits | Renderer.ColorForTable |
| components/elevation/FixtureList.tsx:23 | `colors[type.toLowerCase()] \|\| colors.default` looks the key up through `Object.prototype` | a fixture of type "Constructor" gets the `Object` function as its class name | every type missing from the table gets `bg-gray-500` | not executed | FixtureList.FixtureClassAsWrittenInherits | FixtureList.FixtureClassTable |
| lib/elevation/renderer.ts:84-85 | horizontal grid lines are placed at `height - feetToPixels(feet)` with `height` the rounded canvas height, while fixtures use the exact wall height | an 8' x 7.001' wall at the default width: the canvas is 700 pixels tall and the 7-foot line is drawn at y = 0, on the top border | every interior grid line strictly inside the drawn wall and on the same frame as the fixtures | not executed | Renderer.TopGridLineOnCanvasEdge | Renderer.WallGridLinesInsideCanvas |

Both corrected lookups read only the table's own entries. `Renderer.ColorFor` is the colour used everywhere in the canvas and SVG model, and `FixtureList.FixtureClass` is the class the list shows. The drawing model keeps the program's grid placement, measured from the rounded canvas height, so that the canvas and SVG logs stay the program's; `Renderer.WallLineY` is the corrected placement, and `Renderer.FixtureBottomNearGridLine` bounds how far the two frames differ.

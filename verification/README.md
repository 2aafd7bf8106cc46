# Diagram canvas, kidney-stone marker and media capture — a Dafny model

This project models the application logic of an Angular app with three tools:

- A diagram editor. Circles and squares are placed on a canvas, dragged, relabelled, recoloured, deleted, cleared, and imported from JSON.
- A kidney-stone marker. Coloured markers are placed on a kidney image, moved, resized, imported, and exported as JSON.
- A media-capture dialog. It takes a photo, records video or audio, and shows a preview before saving.

There is one Dafny module per source file:

| module | source file | form |
|---|---|---|
| `ShapeModel` | `src/app/models/shape.model.ts` | datatypes |
| `CanvasStore` | `src/app/services/canvas.service.ts` | class `CanvasService` over a `seq<Shape>` |
| `CanvasPage` | `src/app/canvas/canvas.component.ts` | class `CanvasComponent`, plus the import filter as functions |
| `ShapeView` | `src/app/components/shape/shape.component.ts` | class `ShapeComponent` |
| `StoneMarker` | `src/app/components/kidney-stone-marker/kidney-stone-marker.component.ts` | class `KidneyStoneMarker`, plus validation, import, export and `hexToRgba` as functions |
| `CaptureService` | `src/app/services/media-capture.service.ts` | class `MediaCaptureService`, plus MIME choice and permission messages as functions |
| `CaptureModal` | `src/app/components/media-capture-modal/media-capture-modal.component.ts` | class `MediaCaptureModal` |

Two support modules model the JavaScript built-ins the code relies on:

- `Common` holds `Option`, a small JSON value type and truthiness.
- `Text` holds `String.prototype.trim`, `Number.prototype.toString`, `padStart(2, '0')` and `parseInt(_, 16)`.

Persistence and observables are modelled as counters:

- Writing to local storage is the counter `writes`.
- A value pushed through the store's `state$` subject is the counter `emissions`.
- In `CanvasPage`, a subscriber is a handler method (`OnStateEmission`, `OnSelectionEmission`). The page's own operations invoke it at the point where the subject would push synchronously. The shape component's store updates do not run the page's handlers (see "## Left out").

Browser answers arrive as parameters. These include the bounding-rectangle corners, whether `getUserMedia` exists, the permission probe's outcome, the set of MIME types the recorder supports, and whether a stream or recorder could be obtained.

Where the written description of the app and the code differ, the model follows the code:

- A new shape's label number is the total shape count plus one, not a per-type count.
- Importing shapes drops the invalid elements instead of rejecting the whole batch.
- `loadState` does not recover from an unreadable stored value.
- Importing markers from a file keeps the id counter.
- Reloading the page sets the marker id counter to the number of stored markers, which can reissue a live id (see "## Findings"). `LoadSavedStones` models the code; `LoadSavedStonesFixed` is the corrected reload.
- An imported marker array in which the validator reaches a `null` element ends with the read-error alert, not the invalid-format one: reading a field of `null` throws inside `validateStonesData`.

A shape component reads its shape through its `shape` input, which is the object the store holds under that id. The store's position update changes that object in place, so the model reads the shape's fields from the store while the store holds the id (`ShapeComponent.Current`), and from the component's last binding otherwise.

## Model

| member | source | states |
|---|---|---|
| `Text.TrimStart` | src/app/components/shape/shape.component.ts:415 | the result is the suffix of the input after its leading whitespace, and starts with non-whitespace |
| `Text.TrimEnd` | src/app/components/shape/shape.component.ts:415 | the result is the prefix of the input before its trailing whitespace, and ends with non-whitespace |
| `Text.Trim` | src/app/components/shape/shape.component.ts:415 | the trimmed text neither starts nor ends with whitespace and is no longer than the input |
| `Text.TrimIdempotent` | src/app/components/shape/shape.component.ts:415 | trimming an already trimmed text changes nothing |
| `Text.TrimIsSlice` | src/app/components/shape/shape.component.ts:415 | the trimmed text is a contiguous slice of the input |
| `Text.TrimEmptyIffBlank` | src/app/components/shape/shape.component.ts:34 | a text trims to empty exactly when every character of it is whitespace (the "blank colour" test) |
| `Text.NatToString` | src/app/components/media-capture-modal/media-capture-modal.component.ts:333 | a number's decimal spelling is non-empty, all digits, with no leading zero |
| `Text.ParseNatToString` | src/app/components/media-capture-modal/media-capture-modal.component.ts:333 | reading a number's decimal spelling back gives the number |
| `Text.NatToStringInjective` | src/app/components/media-capture-modal/media-capture-modal.component.ts:333 | different numbers have different spellings |
| `Text.PadTwo` | src/app/components/media-capture-modal/media-capture-modal.component.ts:333 | `padStart(2, '0')` keeps the text as its suffix and fills only with zeros up to length two |
| `Text.ParsePadTwo` | src/app/components/media-capture-modal/media-capture-modal.component.ts:333 | below 100, the padded spelling has exactly two characters and reads back as the number |
| `Text.ParseDecimal` | src/app/components/media-capture-modal/media-capture-modal.component.ts:333 | the reference reader accepts exactly the non-empty all-digit texts |
| `Text.HexRun` | src/app/components/kidney-stone-marker/kidney-stone-marker.component.ts:706-708 | `parseInt(_, 16)` reads the longest prefix of hexadecimal digits and stops at the first non-digit |
| `Text.ReadHexRun` | src/app/components/kidney-stone-marker/kidney-stone-marker.component.ts:706-708 | a number is read exactly when the text starts with a hexadecimal digit (otherwise NaN) |
| `Text.ParseHex` | src/app/components/kidney-stone-marker/kidney-stone-marker.component.ts:706-708 | `parseInt(_, 16)` is NaN exactly when no hexadecimal digit follows the skipped prefix; the value is negative only after a minus sign, and its magnitude is the value of the leading digit run, the rest ignored |
| `Text.ParseHexPair` | src/app/components/kidney-stone-marker/kidney-stone-marker.component.ts:706-708 | two hexadecimal digits parse to 16 times the first plus the second |
| `ShapeModel.ParseLabel` | src/app/services/canvas.service.ts:43 | a text read as a label starts with the type name and a space |
| `ShapeModel.Label` | src/app/services/canvas.service.ts:43 | the label starts with the type name, and reading it back gives exactly the type and the number it was built from |
| `ShapeModel.LabelInjective` | src/app/services/canvas.service.ts:43 | a label determines both the shape type and the number |
| `CanvasStore.IndexOf` | src/app/services/canvas.service.ts:68 | `findIndex` gives -1 exactly when the id is absent, and otherwise the first position holding it |
| `CanvasStore.Without` | src/app/services/canvas.service.ts:120 | the filter keeps exactly the shapes whose id differs, and never grows the list |
| `CanvasStore.WithoutAppend` | src/app/services/canvas.service.ts:120 | the filter distributes over concatenation, so the survivors keep their order |
| `CanvasStore.WithoutAbsent` | src/app/services/canvas.service.ts:119-126 | deleting an absent id leaves the list as it was |
| `CanvasStore.WithoutKeepsUnique` | src/app/services/canvas.service.ts:119-126 | deleting keeps ids pairwise distinct |
| `CanvasStore.AppendFreshKeepsUnique` | src/app/services/canvas.service.ts:37-51 | appending a shape with a fresh id keeps ids pairwise distinct |
| `CanvasStore.ReplaceAtKeepsIds` | src/app/services/canvas.service.ts:53-117 | an in-place edit that keeps the id keeps the id set and id uniqueness |
| `CanvasStore.ReplaceAtKeepsIndex` | src/app/services/canvas.service.ts:53-117 | an edit that keeps the id keeps the position where every id is first found |
| `CanvasStore.CanvasService.constructor` | src/app/services/canvas.service.ts:18-35 | starts from the stored list (or empty), with no selection and the suppress flag off |
| `CanvasStore.CanvasService.AddShape` | src/app/services/canvas.service.ts:37-51 | appends exactly one shape at the end: the given id, type and position, size 100x100, colour #FFEB3B, label "type N" with N = old count + 1; persists once; keeps ids unique when the id is fresh |
| `CanvasStore.CanvasService.SaveState` | src/app/services/canvas.service.ts:22-26 | one storage write and one emission |
| `CanvasStore.CanvasService.UpdateShapePosition` | src/app/services/canvas.service.ts:53-65 | returns whether the id exists; moving to the current position changes and persists nothing; otherwise only that shape's x and y change; ids are kept |
| `CanvasStore.CanvasService.UpdateShapeText` | src/app/services/canvas.service.ts:67-93 | no change and no write for an absent id or equal text; otherwise only that shape's text changes, one write and two emissions |
| `CanvasStore.CanvasService.UpdateShapeColor` | src/app/services/canvas.service.ts:95-117 | as for the text, for the colour; a shape without a colour always differs |
| `CanvasStore.CanvasService.DeleteShape` | src/app/services/canvas.service.ts:119-126 | removes every shape with the id, keeps the others in order, clears the selection exactly when it named the id, always writes, keeps ids unique |
| `CanvasStore.CanvasService.SelectShape` | src/app/services/canvas.service.ts:128-131 | sets the selection; shapes and writes untouched |
| `CanvasStore.CanvasService.GetSelectedShapeId` | src/app/services/canvas.service.ts:133-135 | returns the current selection |
| `CanvasStore.CanvasService.ReplaceAllShapes` | src/app/services/canvas.service.ts:137-141 | the list becomes the argument; one write, two emissions; the selection is untouched |
| `CanvasPage.IsValidShape` | src/app/canvas/canvas.component.ts:113-123 | definition: string id, type 'circle' or 'square', numeric x, y, width and height, string text and colour; `ValidShapesMembers` states that the import keeps exactly these |
| `CanvasPage.ValidShapes` | src/app/canvas/canvas.component.ts:113-127 | the import is empty exactly when no element is valid, and never longer than the input |
| `CanvasPage.ValidShapesAppend` | src/app/canvas/canvas.component.ts:127 | filtering distributes over concatenation: order is kept and one bad element does not affect the others |
| `CanvasPage.ValidShapesMembers` | src/app/canvas/canvas.component.ts:113-127 | every valid element is imported, and every imported shape comes from a valid element |
| `CanvasPage.WithoutAll` | src/app/canvas/canvas.component.ts:144-152 | after deleting a list's ids one by one, exactly the shapes with other ids remain |
| `CanvasPage.WithoutAllIds` | src/app/canvas/canvas.component.ts:144-152 | the ids left are the old ids minus the deleted ones |
| `CanvasPage.ClearEmpties` | src/app/canvas/canvas.component.ts:144-152 | deleting every id in the store leaves it empty |
| `CanvasPage.CanvasComponent.constructor` | src/app/canvas/canvas.component.ts:18-25 | no tool armed, no shapes, no selection, clear dialog hidden |
| `CanvasPage.CanvasComponent.Init` | src/app/canvas/canvas.component.ts:27-55 | the page copies the store's list, arms circle when no tool is armed, and the selection ends cleared |
| `CanvasPage.CanvasComponent.OnSelectionEmission` | src/app/canvas/canvas.component.ts:51-54 | the page mirrors the pushed selection |
| `CanvasPage.CanvasComponent.OnStateEmission` | src/app/canvas/canvas.component.ts:30-49 | every state emission copies the list and clears the selection; a missing tool becomes circle |
| `CanvasPage.CanvasComponent.SetSelectedShape` | src/app/canvas/canvas.component.ts:57-60 | arms the tool and clears the selection in store and page |
| `CanvasPage.CanvasComponent.OnCanvasClick` | src/app/canvas/canvas.component.ts:62-86 | a suppressed click only clears the flag; a click inside an `app-shape` element or with no tool adds nothing; otherwise exactly one shape of the armed type is appended at pointer minus origin minus 50 |
| `CanvasPage.CanvasComponent.OnContextMenu` | src/app/canvas/canvas.component.ts:88-95 | a right click outside every element of class `shape` clears the selection and nothing else |
| `CanvasPage.CanvasComponent.DeleteSelectedShape` | src/app/canvas/canvas.component.ts:99-103 | nothing happens without a (non-empty) selection; otherwise that id is filtered out of the store |
| `CanvasPage.CanvasComponent.LoadCanvasFromJson` | src/app/canvas/canvas.component.ts:112-138 | non-arrays are rejected; an array with no valid element leaves everything unchanged; otherwise the store becomes exactly the valid elements, in order, and the count is reported |
| `CanvasPage.CanvasComponent.OpenClearCanvasModal` | src/app/canvas/canvas.component.ts:140-142 | shows the clear dialog |
| `CanvasPage.CanvasComponent.HandleClearCancel` | src/app/canvas/canvas.component.ts:154-156 | hides the clear dialog |
| `CanvasPage.CanvasComponent.DeleteEach` | src/app/canvas/canvas.component.ts:145-149 | deleting the ids of a list one by one leaves exactly the other shapes, with one write and one emission per id; after a non-empty list the page's copy equals the store's list, the tool is re-armed (circle when none was armed) and the selection is cleared, and an empty list changes none of these |
| `CanvasPage.CanvasComponent.HandleClearConfirm` | src/app/canvas/canvas.component.ts:144-152 | deletes each shape of the page's copy (the store ends empty when the copy covers it), one write per deletion, then disarms the tool and clears the selection; the page's copy ends equal to the store's list (or stays empty when it was) |
| `ShapeView.ShapeColor` | src/app/components/shape/shape.component.ts:33-37 | the fill is the shape's colour when it is a non-blank string, #FFEB3B otherwise, and never blank |
| `ShapeView.DragOffset` | src/app/components/shape/shape.component.ts:467-470 | the recorded offset is the pointer's distance from the shape's corner in client coordinates |
| `ShapeView.DragTarget` | src/app/components/shape/shape.component.ts:503-505 | the requested position puts the pointer back at the recorded grab offset from the shape's corner |
| `ShapeView.DragFollowsPointer` | src/app/components/shape/shape.component.ts:467-470 | with a fixed container the new position is the old one plus the pointer displacement, and the press point itself moves nothing |
| `ShapeView.ShapeComponent.Current` | src/app/components/shape/shape.component.ts:52 | the shape as read has the component's id; it is the store's shape while the store holds that id, and the last binding otherwise |
| `ShapeView.ShapeComponent.Color` | src/app/components/shape/shape.component.ts:33-37 | the fill of the shape as currently read is never blank: its own colour when that is a non-blank string, #FFEB3B otherwise |
| `ShapeView.ShapeComponent.OnChanges` | src/app/components/shape/shape.component.ts:162-171 | a new input binding becomes the shape, and its text becomes the text an edit is measured against |
| `ShapeView.ShapeComponent.constructor` | src/app/components/shape/shape.component.ts:73-95 | starts idle: not selected, editing, dragging or listening |
| `ShapeView.ShapeComponent.OnSelectionEmission` | src/app/components/shape/shape.component.ts:107-118 | selected exactly when the pushed id is its own; losing the selection ends editing |
| `ShapeView.ShapeComponent.StartEditing` | src/app/components/shape/shape.component.ts:367-411 | right after a drag only clears the drag flag; otherwise enters editing with original and edited text equal to the shape's current text, the input as wide as the shape, and selects the shape |
| `ShapeView.ShapeComponent.SaveText` | src/app/components/shape/shape.component.ts:413-429 | the trimmed text reaches the store only when it differs from the original, and then the shape reads back with that text and the input is rebound to a copy carrying it; the store gains one write and two emissions exactly when its stored text changes, none otherwise; editing always ends |
| `ShapeView.ShapeComponent.CommitText` | src/app/components/shape/shape.component.ts:417-421 | the changed-text branch: the store's shape with this id gets the text (one write, two emissions) unless it already has it, the input is rebound to the current shape with that text, and the shape reads back with it |
| `ShapeView.ShapeComponent.CancelEditing` | src/app/components/shape/shape.component.ts:431-436 | rebinds the input to a copy of the current shape with the original text, ends editing, calls no store method |
| `ShapeView.ShapeComponent.OnMouseDown` | src/app/components/shape/shape.component.ts:439-487 | no drag while editing or for a button other than 0; otherwise dragging starts, the shape is selected, both listeners are registered, and the offset is the pointer minus the container corner minus the shape's current position |
| `ShapeView.ShapeComponent.OnMouseMove` | src/app/components/shape/shape.component.ts:490-509 | does nothing unless dragging; otherwise the store moves the shape to pointer minus container corner minus grab offset, with one write and one emission when that changes its position and none when it does not, and the shape then reads back at that position; with the container where it was at the press, that is its press position plus the pointer displacement |
| `ShapeView.ShapeComponent.OnMouseUp` | src/app/components/shape/shape.component.ts:512-539 | ends dragging, removes both listeners, and arms the store's click suppression exactly when a drag was active |
| `ShapeView.ShapeComponent.SetShapeColor` | src/app/components/shape/shape.component.ts:39-44 | the store's colour update with its skip-if-equal rule (one write and two emissions when the colour changes, none otherwise), and the picker closes; the shape then reads back with that colour and, when it is not blank, is filled with it |
| `ShapeView.ShapeComponent.ToggleColorPicker` | src/app/components/shape/shape.component.ts:46-49 | flips the picker |
| `StoneMarker.StoneId` | src/app/components/kidney-stone-marker/kidney-stone-marker.component.ts:679 | the id starts with "stone" and reading it back gives the counter |
| `StoneMarker.StoneIdInjective` | src/app/components/kidney-stone-marker/kidney-stone-marker.component.ts:676-679 | different counter values give different ids |
| `StoneMarker.MaxIssued` | src/app/components/kidney-stone-marker/kidney-stone-marker.component.ts:950-951 | the corrected counter is at least every loaded `stone<k>` number, and is one of them (or 0) |
| `StoneMarker.StoneIndex` | src/app/components/kidney-stone-marker/kidney-stone-marker.component.ts:778 | `find` gives the first marker with the id, or none |
| `StoneMarker.RemoveStone` | src/app/components/kidney-stone-marker/kidney-stone-marker.component.ts:692 | the filter keeps exactly the markers with another id; it is `CanvasStore.Without` for the marker record, kept in the module of the file that filters markers |
| `StoneMarker.RemoveStoneAppend` | src/app/components/kidney-stone-marker/kidney-stone-marker.component.ts:692 | the filter keeps the survivors in order |
| `StoneMarker.CircleSize` | src/app/components/kidney-stone-marker/kidney-stone-marker.component.ts:713-717 | the diameter is twice the radius times the smaller container side |
| `StoneMarker.IsValidStone` | src/app/components/kidney-stone-marker/kidney-stone-marker.component.ts:766-772 | definition: an object whose id is a string and whose x, y and radius are numbers, x and y in [0, 1], radius in (0, 1]; `null` is not one; its use is stated by `ScanStones` and `ExportValidates` |
| `StoneMarker.ValidateStonesData` | src/app/components/kidney-stone-marker/kidney-stone-marker.component.ts:763-775 | definition: an array every element of which is a valid marker, the empty array included; `LoadStones` states that loading succeeds exactly then |
| `StoneMarker.ScanStones` | src/app/components/kidney-stone-marker/kidney-stone-marker.component.ts:763-775 | the validator's `every` accepts exactly when every element is a valid marker; otherwise it stops at the first invalid element, throwing when that element is `null` and returning false otherwise |
| `StoneMarker.ImportStones` | src/app/components/kidney-stone-marker/kidney-stone-marker.component.ts:739-744 | same length and order; id and geometry kept; a falsy colour becomes the palette colour of the position, a missing colour index becomes the position |
| `StoneMarker.RoundThousandth` | src/app/components/kidney-stone-marker/kidney-stone-marker.component.ts:919-921 | rounding moves a value by at most half a thousandth |
| `StoneMarker.RoundThousandthIdempotent` | src/app/components/kidney-stone-marker/kidney-stone-marker.component.ts:919-921 | rounding a rounded value changes nothing |
| `StoneMarker.RoundThousandthRange` | src/app/components/kidney-stone-marker/kidney-stone-marker.component.ts:919-921 | rounding keeps [0, 1] values in [0, 1] and values of at least 0.0005 positive |
| `StoneMarker.Export` | src/app/components/kidney-stone-marker/kidney-stone-marker.component.ts:916-922 | the export has the same length and order, each marker's id, and its x, y and radius rounded to thousandths |
| `StoneMarker.ExportDoc` | src/app/components/kidney-stone-marker/kidney-stone-marker.component.ts:916-925 | the exported file is an array with one entry per marker |
| `StoneMarker.ExportValidates` | src/app/components/kidney-stone-marker/kidney-stone-marker.component.ts:763-775 | an export of markers on the image, none below 0.0005 in radius, passes the import validator |
| `StoneMarker.ExportImportRoundTrip` | src/app/components/kidney-stone-marker/kidney-stone-marker.component.ts:726-761 | exporting then importing gives the markers back in order with their ids, rounded geometry and positional colours |
| `StoneMarker.CharIndex` | src/app/components/kidney-stone-marker/kidney-stone-marker.component.ts:703 | the first position of the character, or -1 exactly when it does not occur |
| `StoneMarker.RemoveFirst` | src/app/components/kidney-stone-marker/kidney-stone-marker.component.ts:703 | `replace('#', '')` shortens a text containing `#` by one character, and leaves a text without `#` unchanged |
| `StoneMarker.RemoveFirstSplits` | src/app/components/kidney-stone-marker/kidney-stone-marker.component.ts:703 | the character removed is the first `#`: everything before it and everything after it is kept, in order |
| `StoneMarker.Substring` | src/app/components/kidney-stone-marker/kidney-stone-marker.component.ts:706-708 | `substring` is the slice between the two ends, each clamped to the length |
| `StoneMarker.HexToRgba` | src/app/components/kidney-stone-marker/kidney-stone-marker.component.ts:701-711 | the alpha is passed through unchanged |
| `StoneMarker.HexToRgbaSixDigits` | src/app/components/kidney-stone-marker/kidney-stone-marker.component.ts:701-711 | a `#RRGGBB` colour decodes to its three two-digit channels |
| `StoneMarker.HexToRgbaThreeDigits` | src/app/components/kidney-stone-marker/kidney-stone-marker.component.ts:701-711 | a three-digit colour decodes with the first two digits as red, the third alone as green, and blue NaN |
| `StoneMarker.PaletteShorthand` | src/app/components/kidney-stone-marker/kidney-stone-marker.component.ts:616 | palette entry 92 is the shorthand `#DDD` |
| `StoneMarker.HexToRgbaShorthand` | src/app/components/kidney-stone-marker/kidney-stone-marker.component.ts:701-711 | `#DDD` decodes to red 221, green 13, blue NaN |
| `StoneMarker.Expand` | src/app/components/kidney-stone-marker/kidney-stone-marker.component.ts:701-711 | a three-digit colour is widened by doubling each digit; anything else is kept |
| `StoneMarker.HexToRgbaFixed` | src/app/components/kidney-stone-marker/kidney-stone-marker.component.ts:701-711 | the corrected decoder passes the alpha through |
| `StoneMarker.HexToRgbaFixedShorthand` | src/app/components/kidney-stone-marker/kidney-stone-marker.component.ts:701-711 | the corrected decoder reads `#abc` as `#aabbcc` |
| `StoneMarker.HexToRgbaFixedDDD` | src/app/components/kidney-stone-marker/kidney-stone-marker.component.ts:616 | the corrected decoder reads `#DDD` as grey 221, 221, 221 |
| `StoneMarker.HexToRgbaFixedAgrees` | src/app/components/kidney-stone-marker/kidney-stone-marker.component.ts:701-711 | except on three-digit shorthand, the corrected decoder agrees with the original everywhere |
| `StoneMarker.KidneyStoneMarker.constructor` | src/app/components/kidney-stone-marker/kidney-stone-marker.component.ts:589-628 | no markers, counter 0, idle drag record |
| `StoneMarker.KidneyStoneMarker.LoadSavedStones` | src/app/components/kidney-stone-marker/kidney-stone-marker.component.ts:945-957 | nothing stored keeps the list; an unreadable value empties it; a stored list is restored with the counter set to its length, which need not pass every stored id |
| `StoneMarker.KidneyStoneMarker.LoadSavedStonesFixed` | src/app/components/kidney-stone-marker/kidney-stone-marker.component.ts:945-957 | the corrected reload: as above, but the counter is set past every stored `stone<k>` id, so no stored id can be issued again |
| `StoneMarker.KidneyStoneMarker.AddStone` | src/app/components/kidney-stone-marker/kidney-stone-marker.component.ts:672-689 | no-op at 100 markers; otherwise the counter grows by one and one marker is appended at the centre with radius 0.05, the palette colour of its position and that index; ids stay distinct |
| `StoneMarker.KidneyStoneMarker.DeleteStone` | src/app/components/kidney-stone-marker/kidney-stone-marker.component.ts:691-694 | filters the id out and always persists |
| `StoneMarker.KidneyStoneMarker.SelectStone` | src/app/components/kidney-stone-marker/kidney-stone-marker.component.ts:696-699 | only the active id changes |
| `StoneMarker.KidneyStoneMarker.IncreaseStoneSize` | src/app/components/kidney-stone-marker/kidney-stone-marker.component.ts:777-783 | at or above 0.15 (or unknown id) nothing changes; otherwise only that radius changes, to the smaller of 0.15 and the radius plus 0.01 (so it grows, by at most 0.01), and one write |
| `StoneMarker.KidneyStoneMarker.DecreaseStoneSize` | src/app/components/kidney-stone-marker/kidney-stone-marker.component.ts:785-791 | at or below 0.02 (or unknown id) nothing changes; otherwise only that radius changes, to the larger of 0.02 and the radius minus 0.01 (so it shrinks, by at most 0.01), and one write |
| `StoneMarker.KidneyStoneMarker.ClearAll` | src/app/components/kidney-stone-marker/kidney-stone-marker.component.ts:793-796 | empties the list and persists, keeping the counter |
| `StoneMarker.KidneyStoneMarker.StartDrag` | src/app/components/kidney-stone-marker/kidney-stone-marker.component.ts:798-815 | the drag record becomes "dragging this id from this point" |
| `StoneMarker.KidneyStoneMarker.StartResize` | src/app/components/kidney-stone-marker/kidney-stone-marker.component.ts:817-837 | an unknown id leaves the record; otherwise "resizing this id from this point and radius" |
| `StoneMarker.KidneyStoneMarker.OnMouseMove` | src/app/components/kidney-stone-marker/kidney-stone-marker.component.ts:841-897 | idle, unknown id or no container changes nothing; a drag moves by the scaled displacement clamped to [0.05, 0.95]; a resize scales the start radius, clamped to [0.02, 0.15]; ids and length are kept |
| `StoneMarker.KidneyStoneMarker.Engaged` | src/app/components/kidney-stone-marker/kidney-stone-marker.component.ts:842 | definition: an active non-empty id and a drag or resize in progress, the guard shared by the pointer-move (842) and release (902) handlers; `OnMouseMove` and `OnMouseUp` state what it decides |
| `StoneMarker.KidneyStoneMarker.OnMouseUp` | src/app/components/kidney-stone-marker/kidney-stone-marker.component.ts:901-914 | always back to the idle record; persists exactly when a drag or resize was engaged |
| `StoneMarker.KidneyStoneMarker.LoadStones` | src/app/components/kidney-stone-marker/kidney-stone-marker.component.ts:726-761 | no file changes nothing; an unparsable file, or an array whose validation reaches a `null` element first, gives the read error; other data failing validation gives the invalid-format alert; in these cases the list stays; data passing validation (and only that) replaces the list with the import mapping and reports the count |
| `StoneMarker.KidneyStoneMarker.SaveStones` | src/app/components/kidney-stone-marker/kidney-stone-marker.component.ts:916-922 | one exported entry per marker, same id, each coordinate within half a thousandth |
| `StoneMarker.ReloadReissuesLiveId` | src/app/components/kidney-stone-marker/kidney-stone-marker.component.ts:945-957 | with only `stone2` stored (after `stone1` was deleted), a reload followed by an add gives two markers both named `stone2` |
| `StoneMarker.ReloadFixedKeepsIdsUnique` | src/app/components/kidney-stone-marker/kidney-stone-marker.component.ts:945-957 | the same steps with the corrected reload add `stone3`, and the ids stay distinct |
| `CaptureService.FirstSupportedIndex` | src/app/services/media-capture.service.ts:302-317 | the first supported preference, or -1 exactly when none is supported |
| `CaptureService.MimeChoice` | src/app/services/media-capture.service.ts:302-337 | the choice is a preference or the fallback; supported when any preference is; the fallback when none is |
| `CaptureService.GetSupportedMimeType` | src/app/services/media-capture.service.ts:302-317 | the first-match loop returns the choice |
| `CaptureService.GetSupportedVideoMimeType` | src/app/services/media-capture.service.ts:302-317 | the video choice, always one of the video types |
| `CaptureService.GetSupportedAudioMimeType` | src/app/services/media-capture.service.ts:322-337 | the audio choice, always one of the audio types |
| `CaptureService.MimeChoiceKinds` | src/app/services/media-capture.service.ts:302-337 | the video choice is a `video/` type and the audio choice an `audio/` type |
| `CaptureService.DenialReason` | src/app/services/media-capture.service.ts:57-68 | a failure always has an explanation |
| `CaptureService.CheckPermissions` | src/app/services/media-capture.service.ts:30-77 | echoes the requested flags; granted exactly when the probe succeeded; a failure message is "Permission denied. " followed by the reason |
| `CaptureService.DenialMessagesDistinct` | src/app/services/media-capture.service.ts:57-68 | NotAllowedError, NotFoundError, NotSupportedError and any other error give four different messages |
| `CaptureService.MediaCaptureService.constructor` | src/app/services/media-capture.service.ts:20-25 | no stream, no recorder, no chunks |
| `CaptureService.MediaCaptureService.StartCameraStream` | src/app/services/media-capture.service.ts:103-111 | a granted request holds a video stream, with audio when asked |
| `CaptureService.MediaCaptureService.StartAudioStream` | src/app/services/media-capture.service.ts:116-127 | a granted request holds an audio-only stream |
| `CaptureService.MediaCaptureService.StartRecorder` | src/app/services/media-capture.service.ts:162-217 | clears the chunks; a recorder that is built replaces the old one with the preferred supported MIME type of its kind, recording when `start` succeeds and inactive when `start` throws; one that cannot be built leaves the old recorder; success exactly when built and started |
| `CaptureService.MediaCaptureService.OnDataAvailable` | src/app/services/media-capture.service.ts:173-177 | only non-empty chunks are appended |
| `CaptureService.MediaCaptureService.PauseRecording` | src/app/services/media-capture.service.ts:222-226 | acts only on a recording recorder |
| `CaptureService.MediaCaptureService.ResumeRecording` | src/app/services/media-capture.service.ts:231-235 | acts only on a paused recorder |
| `CaptureService.MediaCaptureService.GetRecordingState` | src/app/services/media-capture.service.ts:275-280 | inactive when there is no recorder, else its state |
| `CaptureService.MediaCaptureService.StopRecording` | src/app/services/media-capture.service.ts:240-270 | no recorder rejects with "No active recording"; an inactive one never answers; otherwise the result holds the recorded chunks with the kind's MIME choice, and the buffer is emptied |
| `CaptureService.MediaCaptureService.StopAllStreams` | src/app/services/media-capture.service.ts:285-297 | no stream and no recorder afterwards; the recorder is stopped only when not inactive |
| `CaptureService.StopAllStreamsTwice` | src/app/services/media-capture.service.ts:285-297 | a second call stops nothing more |
| `CaptureModal.NeedsCamera` | src/app/components/media-capture-modal/media-capture-modal.component.ts:131 | definition: the camera is needed for image and video; `ModeDevices` states its relation to the microphone |
| `CaptureModal.NeedsMicrophone` | src/app/components/media-capture-modal/media-capture-modal.component.ts:132 | definition: the microphone is needed for audio and video; `ModeDevices` states its relation to the camera |
| `CaptureModal.ModeName` | src/app/components/media-capture-modal/media-capture-modal.component.ts:18 | definition: the mode's input string ('image', 'video', 'audio') as interpolated into messages |
| `CaptureModal.NoRecorderMessage` | src/app/components/media-capture-modal/media-capture-modal.component.ts:124 | definition: the unsupported-recorder message naming the mode |
| `CaptureModal.NoRecorderMessageNamesMode` | src/app/components/media-capture-modal/media-capture-modal.component.ts:124 | different modes give different unsupported-recorder messages, and none equals the missing-media-devices message of line 119 |
| `CaptureModal.ModeDevices` | src/app/components/media-capture-modal/media-capture-modal.component.ts:131-132 | the camera is needed exactly for image and video, the microphone exactly for audio and video |
| `CaptureModal.ModalTitle` | src/app/components/media-capture-modal/media-capture-modal.component.ts:358-365 | every mode has a title |
| `CaptureModal.ModalTitleInjective` | src/app/components/media-capture-modal/media-capture-modal.component.ts:358-365 | the three titles differ |
| `CaptureModal.FormatTime` | src/app/components/media-capture-modal/media-capture-modal.component.ts:330-334 | at least five characters with the colon third from the end |
| `CaptureModal.FormatTimeRoundTrip` | src/app/components/media-capture-modal/media-capture-modal.component.ts:330-334 | the minutes part reads back as the whole minutes and the two-digit seconds part as the remaining seconds below 60, and together they give the time; under 100 minutes the display is exactly five characters |
| `CaptureModal.CameraPreviewShown` | src/app/components/media-capture-modal/media-capture-modal.component.ts:370-372 | definition: permission held, no preview, and an image or video mode; `ViewsExclusive` states how it relates to the audio view |
| `CaptureModal.AudioInterfaceShown` | src/app/components/media-capture-modal/media-capture-modal.component.ts:377-379 | definition: permission held, no preview, and the audio mode; `ViewsExclusive` states how it relates to the camera view |
| `CaptureModal.ViewsExclusive` | src/app/components/media-capture-modal/media-capture-modal.component.ts:370-379 | the camera and audio views are never shown together nor over a preview; with permission and no preview exactly the mode's one is shown |
| `CaptureModal.InitFailure` | src/app/components/media-capture-modal/media-capture-modal.component.ts:111-167 | initialisation succeeds exactly when every check passes; a failure always has a message; a refused probe gives the "Permission denied. " message |
| `CaptureModal.MediaCaptureModal.constructor` | src/app/components/media-capture-modal/media-capture-modal.component.ts:47-62 | hidden, idle, no result, no timer; recorder support as detected |
| `CaptureModal.MediaCaptureModal.InitializeCapture` | src/app/components/media-capture-modal/media-capture-modal.component.ts:111-167 | clears the preview and stops loading; permission is held exactly when the checks pass, with a stream carrying exactly the devices the mode needs; otherwise the failure message is shown |
| `CaptureModal.MediaCaptureModal.Acquire` | src/app/components/media-capture-modal/media-capture-modal.component.ts:112-165 | the checks in their order, and the stream opened when all pass |
| `CaptureModal.MediaCaptureModal.OpenStream` | src/app/components/media-capture-modal/media-capture-modal.component.ts:146-155 | a granted request holds the camera (with sound for video) or the microphone |
| `CaptureModal.MediaCaptureModal.StartTimer` | src/app/components/media-capture-modal/media-capture-modal.component.ts:311-315 | one more interval runs and its handle is held |
| `CaptureModal.MediaCaptureModal.StopTimer` | src/app/components/media-capture-modal/media-capture-modal.component.ts:320-325 | the held interval stops; none runs afterwards when only that one ran |
| `CaptureModal.MediaCaptureModal.Tick` | src/app/components/media-capture-modal/media-capture-modal.component.ts:312-314 | each running interval adds one second |
| `CaptureModal.MediaCaptureModal.StartRecording` | src/app/components/media-capture-modal/media-capture-modal.component.ts:192-210 | needs a stream; restarts the clock; starts the kind's recorder, which replaces the old one once built (inactive when `start` throws); when it is not both built and started the flag and the timer are taken back; image mode leaves the recorder and the chunks alone |
| `CaptureModal.MediaCaptureModal.PauseRecording` | src/app/components/media-capture-modal/media-capture-modal.component.ts:215-219 | paused, the held interval cleared (one fewer running when a handle was held), recorder paused if it was recording |
| `CaptureModal.MediaCaptureModal.ResumeRecording` | src/app/components/media-capture-modal/media-capture-modal.component.ts:224-228 | resumed, clock running, recorder resumed if it was paused |
| `CaptureModal.MediaCaptureModal.StopRecording` | src/app/components/media-capture-modal/media-capture-modal.component.ts:233-261 | changes nothing when not recording; otherwise the held interval is cleared and any recorder gets one stop; an active recorder ends inactive and its chunks become the preview; with no recorder, or an inactive one, the recorder and the chunks stay as they were |
| `CaptureModal.MediaCaptureModal.CaptureImage` | src/app/components/media-capture-modal/media-capture-modal.component.ts:172-187 | needs the video element; an encoded frame becomes a JPEG preview |
| `CaptureModal.MediaCaptureModal.HandleFileInput` | src/app/components/media-capture-modal/media-capture-modal.component.ts:92-109 | the first picked file becomes the preview; no file changes nothing |
| `CaptureModal.MediaCaptureModal.Cleanup` | src/app/components/media-capture-modal/media-capture-modal.component.ts:339-353 | nothing recorded, shown or held afterwards, and a second cleanup stops no interval or recorder |
| `CaptureModal.MediaCaptureModal.Close` | src/app/components/media-capture-modal/media-capture-modal.component.ts:303-306 | cleans up and hides: the held interval is cleared and a recorder that is not inactive gets one stop |
| `CaptureModal.MediaCaptureModal.Save` | src/app/components/media-capture-modal/media-capture-modal.component.ts:285-290 | emits the result and closes only when there is one, clearing the held interval and stopping a recorder that is not inactive; otherwise nothing changes |
| `CaptureModal.MediaCaptureModal.Cancel` | src/app/components/media-capture-modal/media-capture-modal.component.ts:295-298 | emits one cancellation and closes, clearing the held interval and stopping a recorder that is not inactive |
| `CaptureModal.MediaCaptureModal.Retake` | src/app/components/media-capture-modal/media-capture-modal.component.ts:266-280 | drops the result and the recording state, clears the held interval, and initialises again: the mode's stream when every check passes, otherwise the `InitFailure` message with the stream kept |
| `CaptureModal.MediaCaptureModal.OnInit` | src/app/components/media-capture-modal/media-capture-modal.component.ts:58-62 | a hidden dialog is untouched; a visible one ends not loading, without preview, holding the mode's stream when every check passes and showing the `InitFailure` message otherwise |
| `CaptureModal.MediaCaptureModal.OnChanges` | src/app/components/media-capture-modal/media-capture-modal.component.ts:68-74 | a visible dialog initialises with the outcome `InitializeCapture` states; a hidden one is cleaned, clearing the held interval and stopping a recorder that is not inactive |
| `CaptureModal.MediaCaptureModal.OnDestroy` | src/app/components/media-capture-modal/media-capture-modal.component.ts:64-66 | cleans up, clearing the held interval and stopping a recorder that is not inactive |

## Left out

- Local storage, `JSON.parse` and `JSON.stringify` are not modelled as text. A write is a counter. A document arrives already parsed. The marker import distinguishes no file, unparsable, not an array, and an element list read field by field. The shape import distinguishes unparsable, not an array and an element list. The stored markers distinguish nothing stored, unreadable and a list.
- CanvasStore.CanvasService.constructor: takes the stored shape list already parsed, or nothing. A stored value that `JSON.parse` cannot read throws out of the service's construction; that failure is not modelled.
- RxJS subjects are not modelled as streams. An emission is a counter. Only `CanvasPage`'s operations call the page's handlers where the subject would push; the shape component's operations count the emission but run no subscriber.
- The DOM and Angular plumbing are not modelled: bounding rectangles (given as parameters), Renderer2 listeners (flags), cursor styles, change detection and focus.
- `setTimeout` is not modelled. This includes the delayed `isDragging = false` after a shape's mouse-up and the focus timeouts.
- Recording intervals are modelled only as counts: `liveTimers`, advanced by `Tick`.
- In the shape component, the layout measurement in `ngAfterViewChecked`, the display text and its truncation, the tooltip, `copyDebugInfo`, click-outside handling and logging are not modelled. They are display-only. `ngOnChanges` is modelled as `OnChanges` apart from these.
- ShapeView.ShapeComponent.Current: assumes the page binds each component to the store's own object and rebinds it whenever the store replaces that object; the page template is not part of this model.
- ShapeView.ShapeComponent.SaveText: the page's `state$` subscription is not run after the store's text update. In the app a changed text makes the page copy the list and clear the selection, and every shape component then drops its selected and editing flags; the model leaves `store.selected`, the page and the component's flags as they were.
- ShapeView.ShapeComponent.OnMouseMove: the page's `state$` subscription is not run after the store's position update. In the app the first move that changes the position clears the store's selection, so the dragged shape ends unselected; the model keeps `store.selected` and `isSelected`.
- ShapeView.ShapeComponent.SetShapeColor: the page's `state$` subscription is not run after the store's colour update. In the app a changed colour clears the selection through the page and deselects every shape component; the model leaves the selection and the flags as they were.
- `bringShapeToFront` and `updateShape` are called by the shape component but are not defined in the canvas service. These calls are not modelled.
- `generateId` uses `Math.random`. `AddShape` takes the new id as a parameter, and keeping ids unique is stated for a fresh id.
- The resize handler computes square-root distances in floating point. They are abstracted as the parameter `ratio`. Coordinates are exact reals, not IEEE doubles.
- StoneMarker.KidneyStoneMarker.OnMouseMove: requires a container of positive width and height. The source divides by them, and a zero-sized container would give an infinite or NaN position, which exact reals cannot express.
- CaptureService.MediaCaptureService.StartRecorder: requires a video or audio kind. It stands for `startVideoRecording` and `startAudioRecording`, and the image mode has no recorder.
- StoneMarker.ImportStones: requires every element to be valid. `loadStones` only maps the data after `validateStonesData` has accepted it.
- StoneMarker.ExportValidates: requires radii of at least 0.0005. A smaller radius rounds to 0, and the validator rejects 0.
- The modal's methods require `Valid()`. This is the invariant (a preview shown exactly when there is a result, and a held timer handle belongs to a running interval) that the constructor establishes and every method preserves.
- The browser media APIs are parameters: `getUserMedia`, `MediaRecorder`, canvas `toBlob`, `Blob`, object URLs and `FileReader`. A recorded chunk is its size, and a picked file is its size and MIME type.
- The final `dataavailable` event a recorder fires while stopping is not modelled.
- `getPermissionInstructions` and the user-agent platform detection are reduced to the parameter `instructions`.
- `supportsPauseResume` is computed but never read by the code, so it is kept only as a field.
- `triggerNativeCapture` is not modelled; it clicks a hidden file input. Preview element wiring and file downloads (the export's download link and file name) are also left out.
- Asynchronous interleaving is not modelled. Each async handler runs to its end in one step, and a promise that never settles is the `Pending` outcome, which leaves the dialog loading.
- In image mode, `stopRecording` yields a result of kind image typed with the audio MIME choice, as the code does. Other paths never reach it with an image recorder.
- When an imported shape or marker object has extra JSON fields, the spread operator keeps them. They are not modelled; only the `Shape` fields are.
- The palette file `src/app/models/shape-palette.ts`, the confirm-clear modal, `app.ts` and the routes are not part of this model. They are constant data or shell code.

## Findings

| source | as written | input that shows it | evidently intended | confidence | as-written member | corrected member |
|---|---|---|---|---|---|---|
| src/app/components/kidney-stone-marker/kidney-stone-marker.component.ts:951 | on reload the id counter is set to the number of stored markers | add stone1 and stone2, delete stone1, reload: the counter is 1, so the next marker added is a second stone2 | the counter must pass every stored `stone<k>` id, as the comment on line 950 says | not executed | `StoneMarker.ReloadReissuesLiveId` | `StoneMarker.KidneyStoneMarker.LoadSavedStonesFixed` |
| src/app/components/kidney-stone-marker/kidney-stone-marker.component.ts:701-711 | `hexToRgba` always reads characters 0-1, 2-3 and 4-5 | the palette entry `#DDD` (line 616) gives `rgba(221, 13, NaN, a)` | a three-digit colour is shorthand, so `#DDD` means `rgba(221, 221, 221, a)` | not executed | `StoneMarker.HexToRgbaShorthand` | `StoneMarker.HexToRgbaFixedDDD` |

# zenith-viz core, modelled in Dafny

zenith-viz is a plotting library. A Python front end validates layers (points,
colours, draw styles, optional timestamps) and hands them to a C++ OpenGL
engine, which draws them and lets the user drag, rotate and pick points with
the mouse. This project models the parts of that system that are logic rather
than GPU plumbing:

- `animation.dfy` (module `Animation`) covers the animated model of
  `zenith/cpp/GLModel.cpp`:
  - the two offset tables `createTimeSteps` builds from the records' timestamps;
  - the wrap-around playback step `timeUpdate`;
  - the play/pause frame gate of `render` and the run of records it draws.

  `GLModelAnimated` is a class whose tables are arrays. The two scans are
  `for` loops, proved against the pure functions `StartBoundaries` and
  `EndBoundaries`. Those functions state what the source writes, with no
  bound on the number of writes.
- `scene.dfy` (module `Scene`) covers the engine's model registry
  (`zenith_viz/cpp/Engine.cpp`) and the pick arbitration of its render loop.
  - `Engine` is a class over a `map<int, ModelEntry>`.
  - The arbitration is a `while` loop over the keys in ascending order. It is
    proved to compute the unique strict-minimum choice `IsBestAmong`.
- `input.dfy` (module `Input`) covers the mouse logic of
  `zenith_viz/cpp/Controls.cpp`:
  - `select`'s cursor mapping and its 0.5 threshold / sentinel decision;
  - the left-drag translation of `Controls`;
  - the right-drag rotation of `Controls3d`.

  The drag and rotation steps are pure functions. The classes' methods are
  proved to be exactly one step of them. Lemmas show that a whole drag
  telescopes to the total cursor displacement.
- `frontend.dfy` (module `Frontend`) covers the Python front end
  (`zenith_viz/zenith_viz.py`):
  - hex colours, via `bytes.fromhex` and `struct.unpack`;
  - named colours, with the near-miss suggestion;
  - vector colours;
  - the draw-style clamp and the column, name and string-data checks;
  - vertex interleaving;
  - the plotting object's layer registry, as class `Zenith` with its add and
    remove methods.

  The 2D and 3D Python subclasses are one class with four add methods.
- `wrappers.dfy` (module `Wrappers`) holds `Option`, `Result` and `Min`.

The modelling choices below apply throughout.

- Coordinates, angles and colours are exact reals.
- Timestamps and indices are unbounded integers.
- The window system reaches the model as parameters: cursor position, button
  and key state, window and framebuffer sizes, and the wall clock. The clock
  becomes a `due` flag and a `now` time.
- The depth read, `glm::unProject` and the VP-tree nearest-neighbour query
  reach `select` as function parameters.
- The YAML colour table is a parameter of type `ColorTable`, a sequence of
  (name, code) pairs in file order.
- The Levenshtein distance is a function parameter.
- A Python argument reaches the model already classified:
  - a colour is text, a sequence of `Channel`s (int, float or another number
    type) or something else;
  - a numeric column carries its numpy dtype.
- `check_color_data` is `ColorDataOrZeros`. The model `create_gl_model`
  builds is `LayerEntry`.

Where the code and its written description disagree, the model follows the
code:

- The cursor (512, 384) in a 1024x768 window on a 2048x1536 framebuffer
  maps to pixel (1024, 767). The `- 1` of the flip makes y 767, not 768.
- The timestamps [0, 1, 2, 3, 10, 11, 12] with step 1 give numSteps 12,
  which is (12 - 0) / 1.
- The drawn run ends at `endOffsets[endStep - 1]`, not `endOffsets[endStep]`.
- Python passes `window_size` to the animated model as both its step size and
  its window size. The model does the same (`Animation(windowSize,
  windowSize, ...)`).

## Model

| member | source | states |
|---|---|---|
| Animation.NumSteps | zenith/cpp/GLModel.cpp:299-301 | numSteps whole steps fit in the span from the first to the last timestamp, and the next one does not. |
| Animation.CrossingsSound | zenith/cpp/GLModel.cpp:304-324 | The boundary scan's result meets its declarative description. Its indices are strictly increasing and inside the records. The k-th index is later than the k-th boundary plus the lead. Every record skipped before it, or after the last one, is not later. |
| Animation.CrossingsUnique | zenith/cpp/GLModel.cpp:304-324 | Any sequence meeting that description is the scan's result, so the description is complete. |
| Animation.StartBoundariesShape | zenith/cpp/GLModel.cpp:304-314 | What the first loop writes starts with 0. The later entries are record indices in [1, numVertices). All entries strictly increase: one boundary per record, and no repeated offset across a gap. |
| Animation.EndBoundariesShape | zenith/cpp/GLModel.cpp:315-324 | What the second loop writes are record indices in [1, numVertices), strictly increasing. |
| Animation.EndBoundariesFit | zenith/cpp/GLModel.cpp:301-324 | With sorted timestamps the second loop writes at most numSteps entries, so it stays inside its allocation. |
| Animation.StartBoundariesFitWhenDivisible | zenith/cpp/GLModel.cpp:301-314 | The first loop stays inside its allocation when the span is a positive multiple of the step. |
| Animation.StartScanOverflows | zenith/cpp/GLModel.cpp:301-314 | With timestamps [0, 3, 5] and step 2, numSteps is 2, yet the first loop writes three entries. |
| Animation.SingleRecordOverflows | zenith/cpp/GLModel.cpp:299-305 | A single record gives numSteps 0, yet startOffsets[0] is written. |
| Animation.TablesOrdered | zenith/cpp/GLModel.cpp:302-324 | Both tables of the corrected construction are non-decreasing and bounded by the record count, and the start table begins with 0. |
| Animation.TimeUpdateBounds | zenith/cpp/GLModel.cpp:208-219 | With curIndex on a step and next at most 1, timeUpdate keeps curIndex <= endStep <= numSteps - 1. With windowSteps >= 1 and at least two steps, it also keeps endStep >= 1. |
| Animation.PausedUpdateIdempotent | zenith/cpp/GLModel.cpp:208-213 | timeUpdate(0) twice equals once. It resets the last step to 0, and it keeps every earlier step. |
| Animation.PlaybackVisitsEveryStep | zenith/cpp/GLModel.cpp:208-213 | Playing from step 0, the k-th call of timeUpdate(1) shows step k, for every k < numSteps. |
| Animation.PlaybackLoops | zenith/cpp/GLModel.cpp:208-213 | Playing from step 0, numSteps calls bring curIndex back to 0. |
| Animation.EndOffsetReadBeyondScan | zenith/cpp/GLModel.cpp:268-269 | With timestamps [0..4] and step = window = 1, the end scan writes two entries. After two frames render reads endOffsets[2], which was never written. |
| Animation.SingleStepReadsBeforeTable | zenith/cpp/GLModel.cpp:208-219 | With a single step, which timestamps [0, 1] and step 1 give, every timeUpdate leaves endStep at 0, so render's read index endStep - 1 is -1. |
| Animation.GLModelAnimated.constructor | zenith/cpp/GLModel.cpp:170-200 | The tables are built, and playback starts paused on step 0 with endStep 1, windowSteps 1 and 30 fps. |
| Animation.GLModelAnimated.CreateTimeSteps | zenith/cpp/GLModel.cpp:298-325 | numSteps is NumSteps. Each table agrees with what its loop writes on every entry that loop writes inside the allocation, and holds numVertices elsewhere. The counts of entries written are recorded. |
| Animation.GLModelAnimated.ScanStartOffsets | zenith/cpp/GLModel.cpp:304-314 | The first loop, with its writes guarded by the allocation size, fills the table from StartBoundaries. |
| Animation.GLModelAnimated.ScanEndOffsets | zenith/cpp/GLModel.cpp:315-324 | The second loop, guarded likewise, fills the table from EndBoundaries. |
| Animation.GLModelAnimated.TimeUpdate | zenith/cpp/GLModel.cpp:208-219 | curIndex wraps to 0 or advances by next. endStep becomes curIndex + windowSteps, clamped to numSteps - 1. The tables are untouched. |
| Animation.GLModelAnimated.DrawnRange | zenith/cpp/GLModel.cpp:268-269 | Corrected read: the drawn run is defined exactly when curIndex and endStep - 1 index the tables, and is None otherwise, where the source reads outside them. It runs from startOffsets[curIndex] to endOffsets[endStep - 1], and both ends are at most numVertices. |
| Animation.GLModelAnimated.RenderFrame | zenith/cpp/GLModel.cpp:237-251 | The button toggles paused. Playing and due: step by 1 and reset the clock. Paused: timeUpdate(0). Playing and not due: nothing changes. |
| Input.Decide | zenith_viz/cpp/Controls.cpp:150-173 | The first neighbour is reported, with its index, point and distance, exactly when its distance is below 0.5. Otherwise the result is the sentinel. A reported id is >= 0. |
| Input.CursorToPixel | zenith_viz/cpp/Controls.cpp:118-123 | x is scaled by framebuffer width / window width. y is scaled likewise and flipped to bufferHeight - 1 - y. |
| Input.CursorToPixelInFramebuffer | zenith_viz/cpp/Controls.cpp:118-123 | A cursor inside the window maps to columns [0, bufferWidth) and rows (-1, bufferHeight - 1]. |
| Input.RetinaCursorExample | zenith_viz/cpp/Controls.cpp:118-123 | (512, 384) in a 1024x768 window on a 2048x1536 framebuffer maps to (1024, 767). |
| Input.SelectViewport | zenith_viz/cpp/Controls.cpp:128-135 | The unprojection viewport is the framebuffer rectangle. |
| Input.Select | zenith_viz/cpp/Controls.cpp:109-173 | The cursor pixel, with its depth, is unprojected with the framebuffer viewport. The result is the sentinel exactly when the first neighbour of that point is not within 0.5. Otherwise it is that neighbour's index, point and distance. |
| Input.DragStep | zenith_viz/cpp/Controls.cpp:26-57 | Released: no motion, and the cursor is remembered. Pressed without shift: the motion is the scaled displacement (x along the cursor, y against it), and the cursor is remembered. Pressed with shift: no motion, and the old cursor is kept. |
| Input.DragPathTelescopes | zenith_viz/cpp/Controls.cpp:37-52 | A drag over any number of frames moves by the scaled displacement from the remembered cursor to the last one. |
| Input.RotateStep | zenith_viz/cpp/Controls.cpp:78-94 | While pressed, each angle grows by its scaled displacement. The cursor is remembered either way. |
| Input.RotatePathTelescopes | zenith_viz/cpp/Controls.cpp:83-90 | With the button held throughout, the angles grow by the total scaled displacement. |
| Input.ReleasedFramesKeepAngles | zenith_viz/cpp/Controls.cpp:83-94 | Released frames keep the angles but move the remembered cursor to the last one. |
| Input.FrameSpeed2D | zenith_viz/cpp/Engine.cpp:192-198 | The 2D per-frame drag speed, the mean dimension divided by its inverse scroll factor, equals the scroll offset. |
| Input.FrameSpeed3D | zenith_viz/cpp/Engine.cpp:256-263 | The 3D per-frame drag speed is the size of the scroll offset times width / height. It is non-negative, and 0 exactly when the offset is 0. |
| Input.FirstFrameSpeed | zenith_viz/cpp/Controls.cpp:10 | With the initial scroll offset 100, the first frame's drag speed is 100 in 2D and 400/3 in 3D on 1024x768, not the constructor's 20. |
| Input.Controls.constructor | zenith_viz/cpp/Controls.cpp:12-20 | The cursor at creation is remembered. |
| Input.Controls.TranslationVector | zenith_viz/cpp/Controls.cpp:26-57 | The result and the new remembered cursor are exactly one DragStep. |
| Input.Controls.RotationMatrix | zenith_viz/cpp/Controls.cpp:22-24 | The 2D controls always give the identity rotation. |
| Input.Controls3d.constructor | zenith_viz/cpp/Controls.cpp:60-76 | The angles start at 0 and rotateSpeed is 3. Both cursor memories, base and own, start at the cursor, and both speeds, base and own, are the given speed. |
| Input.Controls3d.RotationMatrix | zenith_viz/cpp/Controls.cpp:78-100 | The angles and the own remembered cursor are exactly one RotateStep. last_angle equals angle afterwards, and the base cursor of the translation is untouched. |
| Scene.Insert | zenith_viz/cpp/Engine.cpp:167-170 | The keys gain the id. A key already present keeps its model, and a fresh key maps to the new model. |
| Scene.Erase | zenith_viz/cpp/Engine.cpp:172-178 | The keys lose exactly the id, and the other models are untouched. |
| Scene.InsertCount | zenith_viz/cpp/Engine.cpp:167-186 | A fresh add raises the count by 1. Re-adding a present id leaves it. |
| Scene.EraseCount | zenith_viz/cpp/Engine.cpp:172-186 | A successful remove lowers the count by 1. Removing an absent id changes nothing. |
| Scene.EraseUndoesInsert | zenith_viz/cpp/Engine.cpp:167-178 | Removing a freshly added id restores the registry. |
| Scene.Engine.constructor | zenith_viz/cpp/Engine.cpp:22-27 | The registry starts empty, with mouse speed 20 and the picked point at the origin. |
| Scene.Engine.UpdateMouseSpeed | zenith_viz/cpp/Engine.cpp:192-198 | Each frame the engine's mouseSpeed becomes FrameSpeed2D (Engine::animate) or FrameSpeed3D (Engine3d::animate, lines 256-263) of the scroll offset, and the controls' speed becomes the same value. |
| Scene.Engine.AddModel | zenith_viz/cpp/Engine.cpp:167-170 | The result is always true, and the registry becomes Insert of the old one. |
| Scene.Engine.RemoveModel | zenith_viz/cpp/Engine.cpp:172-178 | The result is true exactly when the id was present, and the registry becomes Erase of the old one. |
| Scene.Engine.ModelExists | zenith_viz/cpp/Engine.cpp:180-182 | True exactly when the id is a key. |
| Scene.Engine.NumModels | zenith_viz/cpp/Engine.cpp:184-186 | The number of keys. It is 0 exactly when the registry is empty. |
| Scene.Engine.Pick | zenith_viz/cpp/Engine.cpp:125-149 | The loop's outcome is the strict-minimum choice: none exactly when no pickable model reports an id >= 0 under 1000000. Otherwise it is a candidate no farther than any other and strictly closer than every lower key. The picked point follows it and keeps its old value when there is none. |
| Scene.PickStep | zenith_viz/cpp/Engine.cpp:130-148 | One visit of the loop extends the strict-minimum choice to one more, higher key. |
| Scene.BestIsUnique | zenith_viz/cpp/Engine.cpp:128-149 | The strict-minimum choice has one outcome, so the lowest key wins ties. |
| Scene.Engine.Report | zenith_viz/cpp/Engine.cpp:150-156 | A label is shown exactly when best_id > -1, with the model's name and the index. A data string is included exactly when the model has any, and it is the one at best_id. |
| Scene.PickIsReportable | zenith_viz/cpp/Engine.cpp:150-155 | When every query names one of its model's points, and string data is empty or one per point, the label of the pick is defined. |
| Frontend.FromHex | zenith_viz/zenith_viz.py:126 | bytes.fromhex: every decoded value is a byte, and there are at most half as many as characters. |
| Frontend.FromHexOfDigits | zenith_viz/zenith_viz.py:126 | An even run of hex digits decodes pair by pair. |
| Frontend.DecodeEncode | zenith_viz/zenith_viz.py:126 | Reading pairs back undoes hex encoding. |
| Frontend.HexRoundTrip | zenith_viz/zenith_viz.py:126 | bytes.fromhex undoes hex encoding of any byte sequence. |
| Frontend.FromHexTrailingSpace | zenith_viz/zenith_viz.py:126 | bytes.fromhex ignores one trailing whitespace character. |
| Frontend.RemoveHash | zenith_viz/zenith_viz.py:126 | No '#' is left, and text without '#' is unchanged. |
| Frontend.ConstructFromHex | zenith_viz/zenith_viz.py:124-131 | Failures are ValueError (bad hex) or struct.error (byte count other than half the length). Successful channels are bytes. |
| Frontend.HexCodeDecodes | zenith_viz/zenith_viz.py:124-131 | A '#' code with 6 or 8 digits decodes to its byte pairs, with alpha 127 after 6 digits, and always gives four channels. |
| Frontend.HexColorRoundTrip | zenith_viz/zenith_viz.py:124-131 | Every 3- or 4-byte colour written as '#' and hex decodes back to itself, with alpha 127 added to three bytes. |
| Frontend.WhiteHexExamples | test/test_zenith.py:9-22 | "#ffffff" gives (255, 255, 255, 127) and "#ffffffff" gives (255, 255, 255, 255). |
| Frontend.BadHexCodesDoNotMatch | test/test_zenith.py:25-40 | "#junk", "#3f3f" and "#123456789" do not match the colour pattern. |
| Frontend.Lower | zenith_viz/zenith_viz.py:154 | Lower-casing keeps the length and lower-cases each character. |
| Frontend.LowerHexCode | zenith_viz/zenith_viz.py:154 | A lower-cased hex code is still a hex code with the same bytes. |
| Frontend.Lookup | zenith_viz/zenith_viz.py:153-154 | A code is found exactly when the name is in the table, and the table pairs that name with that code. |
| Frontend.Closest | zenith_viz/zenith_viz.py:156-161 | The suggestion is a name at least distance, and the first such one, as the stable sort gives. |
| Frontend.UnknownName | zenith_viz/zenith_viz.py:156-168 | An unknown name raises InvalidColorRepresentationError. The message names the closest key when its distance is below 3, and is "No matching color found for input" otherwise. |
| Frontend.ValidateColorStringAsWritten | zenith_viz/zenith_viz.py:149-168 | Text the pattern as written matches, including one with a trailing newline, goes to ConstructFromHex. Other text that is a table name decodes its lower-cased code, and any other text raises the near-miss error. |
| Frontend.TrailingNewlineAsWritten | zenith_viz/zenith_viz.py:150-151 | "#ffffff\n" matches the pattern as written and then fails with struct.error, not the colour error. |
| Frontend.ValidateColorString | zenith_viz/zenith_viz.py:149-168 | A hex code decodes. Otherwise a table name decodes its lower-cased code. Otherwise the near-miss error is raised. |
| Frontend.ColorStringOutcomes | zenith_viz/zenith_viz.py:149-168 | With hex codes throughout the table, string validation succeeds exactly on hex codes and table names, always with four channels. Every failure is the colour error. |
| Frontend.NamedColorDecodes | zenith_viz/zenith_viz.py:153-154 | A table name decodes its code whatever the code's letter case. |
| Frontend.NamedColorExample | test/test_zenith.py:43-48 | CornflowerBlue with code #6495ED gives (100, 149, 237, 127). |
| Frontend.ValidateVector | zenith_viz/zenith_viz.py:133-147 | No channels raises (the reduce). Otherwise the result is true exactly for 3 or 4 channels, all of the wanted type and within the range. |
| Frontend.ScaleChannel | zenith_viz/zenith_viz.py:179 | int(x * 255) of x in [0, 1] is the floor, in 0..255. |
| Frontend.MapColorVector | zenith_viz/zenith_viz.py:175-183 | Empty raises. 3 or 4 int channels in range are returned unchanged, and 3 or 4 float channels in range are scaled. Success only in those cases; every other failure is the colour error. |
| Frontend.MappedChannelsAreBytes | zenith_viz/zenith_viz.py:175-179 | A mapped colour has one byte-valued channel per input channel. |
| Frontend.ValidateAndMapColor | zenith_viz/zenith_viz.py:170-187 | Text goes to the string validator and a sequence to the channel checks. Anything else is the colour error. |
| Frontend.StyleValue | zenith_viz/zenith_viz.py:31-41 | Each member's value is in 0..9. |
| Frontend.StyleOf | zenith_viz/zenith_viz.py:31-41 | A member exists exactly for 0..9, and it has that value. |
| Frontend.StyleValueRoundTrip | zenith_viz/zenith_viz.py:31-41 | Every member is recovered from its value. |
| Frontend.CheckDrawStyle | zenith_viz/zenith_viz.py:97-106 | A member gives its value, and an int in 0..9 is kept. Anything else gives GL_POINTS (0). |
| Frontend.DrawStyleMemberAndValueAgree | test/test_zenith.py:62-66 | A member and its value check alike. |
| Frontend.CheckValues | zenith_viz/zenith_viz.py:59-87 | True exactly when x and y (and z and the timestamps, when given) have allowed dtypes and one common length. |
| Frontend.CheckName | zenith_viz/zenith_viz.py:89-95 | True exactly for a non-empty name. |
| Frontend.ValidateStringData | zenith_viz/zenith_viz.py:189-196 | The strings come back exactly when there is one per point. Otherwise the result is empty. |
| Frontend.Interleave | zenith_viz/zenith_viz.py:339 | Three values per point. |
| Frontend.InterleaveRoundTrip | zenith_viz/zenith_viz.py:339 | Each coordinate row comes back out of the interleaved data unchanged. |
| Frontend.Ones | zenith_viz/zenith_viz.py:225 | n ones. |
| Frontend.PlanarEntry | zenith_viz/zenith_viz.py:225 | A 2D layer's vertices hold x and y, and every vertex lies on the plane z = 1. |
| Frontend.Normalized | zenith_viz/zenith_viz.py:226-228 | Each channel is divided by 255. |
| Frontend.Zenith.constructor | zenith_viz/zenith_viz.py:51-57 | No layers, no string data and an empty engine. |
| Frontend.Zenith.AddLayer3D | zenith_viz/zenith_viz.py:318-365 | Bad columns or name: False, nothing changes. Otherwise the string data is recorded. A colour error raises without a new id. A good colour takes the next id and records the model, which the engine registers. The registry invariant is kept. |
| Frontend.Zenith.AddLayer2DAsWritten | zenith_viz/zenith_viz.py:204-248 | Like AddLayer3D with the plane z = 1, but the engine is never changed. |
| Frontend.Zenith.AddLayer2D | zenith_viz/zenith_viz.py:204-248 | Corrected: like AddLayer3D with the plane z = 1, and the engine registers the model, which the cited lines never do. The source as written is AddLayer2DAsWritten. |
| Frontend.Zenith.AddAnimatedLayer2D | zenith_viz/zenith_viz.py:250-310 | Like AddLayer2D. A window size outside 1..len(x) is checked after the string data is recorded: False, with that record left behind and no id taken. |
| Frontend.Zenith.AddAnimatedLayer3D | zenith_viz/zenith_viz.py:367-424 | The string data is recorded before the name check. A bad name or window: False, no id taken. Otherwise like AddLayer3D with the animation. |
| Frontend.Zenith.RemoveLayer | zenith_viz/zenith_viz.py:114-115 | True exactly when the engine held the id. The engine's registry loses it. |
| Frontend.Zenith.RegisterLayer | zenith_viz/zenith_viz.py:344-365 | The next id is taken, recorded with its model, and handed to the engine when asked. The id was never issued before. |
| Frontend.PlanarLayerNotRemovableAsWritten | test/test_zenith.py:78-103 | With the 2D add as written, the first layer gets id 1 but cannot be removed. |
| Frontend.FourLayersThenRemoveTwo | test/test_zenith.py:78-108 | Four layers get ids 1 to 4. Removing 3 and 4 succeeds and leaves 2, and removing 12341 fails. |
| Frontend.UnequalLengthsRejected | test/test_zenith.py:69-75 | Columns of unequal length are rejected and no layer is made. |

## Left out

- GL, ImGui and window plumbing: every `gl*`/ImGui call, shader setup, buffer binding, `GLBoilerPlate`, and the camera construction of `Engine::animate`. These only feed the GPU.
- `show()`, threading and logging: no effect on the logic modelled.
- The scroll callbacks: global state reached through the window user pointer.
- The Python bindings, `setup.py`, `script.py` and `main.cpp`: glue, build and ad-hoc scripts.
- Destructors, `malloc` and `free`: lifetime only.
- The depth read, `glm::unProject`, the VP-tree, the YAML file and the Levenshtein distance: parameters, as said above.
- Floating point: all float and double rounding, including the `static_cast<float>` of the drag and rotation changes, is exact real arithmetic. The rotation matrix is the pair of angles, not a 4x4 matrix.
- Aliasing: the engine stores model pointers. The model stores values, so a change through one alias is not seen through another.
- Animation.GLModelAnimated.CreateTimeSteps: this is the corrected construction, not the source's code.
  - Writes past numSteps are dropped, where the source writes past its allocation.
  - Entries never written hold numVertices, where the source leaves them uninitialised.
  - The as-written behaviour is the unbounded `StartBoundaries`/`EndBoundaries` plus the recorded write counts.
- Animation.GLModelAnimated.RenderFrame: the wall-clock test `curTime > time + 1/fps` is the flag `due`; `fps` and the sliders are fields nothing here changes.
- Input.Select: requires the nearest-neighbour query to return at least one result, because the source fails on `distances->at(0)` when it returns none.
- Input.Select: the modelview `view * model * rotation` and the projection that `glm::unProject` receives are not separate arguments; they are part of the `unproject` function parameter, and no matrix product is modelled.
- Scene.Engine.UpdateMouseSpeed: in 2D it requires a non-zero scroll offset and a non-zero dimension sum, where the source divides by zero in floating point. The 2D scroll callback (`zenith_viz/cpp/Controls.hpp`) keeps the offset at 0.01 or more. The 3D one has no floor, which is why the 3D speed takes the size of the offset. The scroll callbacks themselves, which change the offset, are left out, so the offset is a parameter.
- Animation.GLModelAnimated.DrawnRange: this is the corrected read. Where the source reads `endOffsets[endStep - 1]` or `startOffsets[curIndex]` outside the tables, which happens on every frame when numSteps is 1 (endStep is 0), it returns None, meaning nothing is drawn.
- Frontend.ValidateAndMapColor: every add method and ValidateAndMapColor itself send colour text through the corrected ValidateColorString. So `add_layer(..., color="#ffffff\n")` raises the InvalidColor error in the model, where the source raises struct.error. The as-written path is ValidateColorStringAsWritten alone.
- Frontend.Zenith.AddLayer2D, Frontend.Zenith.AddLayer3D, Frontend.Zenith.AddAnimatedLayer2D, Frontend.Zenith.AddAnimatedLayer3D: their colour step is the corrected one just described.
- Frontend.Zenith.AddLayer2D: this is the corrected 2D add, which registers the model with the engine; the source's `add_layer` is AddLayer2DAsWritten.
- Frontend.CheckDrawStyle: the argument is an enumeration member or an int. A float in 0..9, which the source returns unchanged, is not modelled.
- Frontend.CheckName: the argument is a string. A non-string name, for which `type(name) == str` fails (and `len` may raise), is not modelled.
- Scene.Engine.Pick: the selection of each model is a query function of the model; `best_model` is recorded as its key.
- Frontend.ScaleChannel: `int(x * 255)` is computed on exact reals, not on the float value.
- Frontend.Lookup: a Python dict has unique keys; with duplicate names in the table the first one wins here.
- Frontend.ValidateVector: numpy scalars, bools and other non-int, non-float numbers are `OtherNumber`, which fails both type checks, as `type(x) == int` does in Python. Non-numeric channels are not modelled.
- Frontend.CheckValues: numpy dtype inference is left to the caller, who supplies each column's dtype; `np.array([range(50)])` of the window tests is a one-row column of length 1, and `CheckValues` rejects it before the window check.
- Frontend.FourLayersThenRemoveTwo: the layers use int channels for firebrick instead of the name, since the colour table is a parameter; their point data is one point.

## Findings

| source | as written | input that shows it | evidently intended | confidence | as-written member | corrected member |
|---|---|---|---|---|---|---|
| zenith/cpp/GLModel.cpp:301-314 | The start-offset loop writes `startOffsets[stepIdx]` with no bound on stepIdx. | Timestamps [0, 3, 5] with step 2: numSteps is 2, and `startOffsets[2]` is written. | Writes stay inside the numSteps entries allocated. | not executed | Animation.StartScanOverflows | Animation.GLModelAnimated.CreateTimeSteps |
| zenith/cpp/GLModel.cpp:268-269 | render reads `endOffsets[endStep - 1]`, an entry the end scan may never have written. | Timestamps [0, 1, 2, 3, 4] with step = window = 1: two entries are written. After two frames of playback, `endOffsets[2]` is read. | Every entry read is defined and bounded by numVertices. | not executed | Animation.EndOffsetReadBeyondScan | Animation.GLModelAnimated.DrawnRange |
| zenith/cpp/GLModel.cpp:214-218 | With numSteps 1, timeUpdate clamps endStep to numSteps - 1 = 0, and render then reads `endOffsets[endStep - 1]`, before the table. | Timestamps [0, 1] with window size 1, which add_animated_layer accepts: numSteps is 1, and the first paused frame's timeUpdate(0) sets endStep to 0, so `endOffsets[-1]` is read on every frame. | Every entry read lies inside the tables. | not executed | Animation.SingleStepReadsBeforeTable | Animation.GLModelAnimated.DrawnRange |
| zenith_viz/zenith_viz.py:150-151 | The colour pattern ends each alternative with `$`, which also matches before a final newline. | "#ffffff\n" matches, and `struct.unpack` then raises struct.error instead of InvalidColorRepresentationError. | Only '#' and 6 or 8 hex digits match. | not executed | Frontend.TrailingNewlineAsWritten | Frontend.ColorStringOutcomes |
| zenith_viz/zenith_viz.py:204-248 | `Zenith2D.add_layer` takes an id but never calls `add_model`. | Add one 2D layer to a new Zenith2D: `remove_layer(1)` returns False, and the layer tests' `num_models() == 2` cannot hold. | The engine registers the layer, as every other add method does. | not executed | Frontend.PlanarLayerNotRemovableAsWritten | Frontend.FourLayersThenRemoveTwo |

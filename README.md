# Fractal drawer camera: a Dafny model

The program draws Koch, Sierpinski, tree and dragon fractals with a turtle pen,
but never draws them directly. The curve generators record every pen call in
a **Camera**, a deferred command buffer. `Camera.draw` replays the buffer
through a pan/zoom transform:

- lengths are multiplied by the zoom;
- recorded world coordinates become `(original - offset) * scale`;
- everything else passes through unchanged.

Two mouse handlers change the camera and redraw. A drag pans the offset. A
scroll changes the zoom, clamped below at 0.1, and redraws only after enough
scrolling has built up (a debounce). A token list (`execution_ids`) lets a
newer redraw make an older one stop issuing calls.

The model has five modules:

- `Commands` (commands.dfy). The recorded pen methods, a fixed table of their
  parameter names, the `Call` and `Record` values, and the record
  `Camera.add` builds.
- `Transform` (transform.dfy). The per-record rewrite, the call sequence of
  one replay pass (`Pass`), the superseded guard, and `list.remove` on tokens.
- `Recorder` (recorder.dfy). `class Camera` with the source's fields, plus an
  `output` field: the trace of calls the pen receives. Its methods are `Add`,
  `Draw` (the replay loop, split into `ReplayRange`) and `DrawInterruptedAt`,
  a redraw interrupted by a newer one.
- `Interaction` (interaction.dfy). `class MouseEventHandler` with
  `OnMouseDown`, `OnMouseUp` and `OnScroll`, and the pure pan and scroll
  steps they follow.
- `Curves` (curves.dfy). For each generator, a function gives the segments it
  draws (the arguments of its `add_line` calls), and a recording method
  appends exactly the records of those segments to the camera. Counts, leaf
  lengths and shapes are proved about the segment functions.

`calculate_components` is a parameter `comp` of type
`(real, real) -> (real, real)`, so every result holds for any trigonometry.

## Model

| member | source | states |
|---|---|---|
| Commands.Recorded | main.py:20-21 | The recorded coordinate is the keyword value if there is one, else the positional argument at the slot, else None, and it is None exactly when both are missing |
| Commands.IndexOf | main.py:55 | The returned index holds the name and no earlier slot does (first occurrence, as `list.index`) |
| Recorder.Camera.constructor | main.py:7-15 | The camera starts at the given offset, zoom and buffer, with no tokens, current_id 0, a zero scroll counter and no calls issued; no token exceeds current_id |
| Recorder.Camera.Add | main.py:17-23 | Exactly one record is appended at the end, with the arguments unchanged. original_x is keyword x, else args[0], else None; likewise original_y with args[1]. No other field changes |
| Transform.RewriteArg | main.py:38-65 | Positional slot i of a replayed call is the screen coordinate if it is the x or y slot with a recorded coordinate passed positionally. Slot 0 of a length command is multiplied by scale. Every other slot is unchanged |
| Transform.RewriteKeyword | main.py:38-65 | Keyword x or y holds the screen coordinate of its recorded value. Keywords distance and radius of a length command are multiplied by scale. Every other keyword is unchanged |
| Transform.NonSpatialPassesThrough | main.py:43-65 | A command with no x/y parameter that is not a length command (penup, pendown, left, ...) is replayed exactly as recorded |
| Transform.GotoTransform | main.py:51-65 | A goto recorded positionally is replayed at the screen image of its world point |
| Transform.GotoKeywordTransform | main.py:51-61 | A goto recorded with keywords x and y is replayed with the same keywords holding the screen image of its world point |
| Transform.LengthTransform | main.py:43-45 | A length command recorded positionally has its length scaled. The offset never enters, although its first argument was recorded as original_x |
| Transform.ReplayExtend | main.py:35-67 | Issuing the rewrite of record i after a replay of records lo..i-1 gives the replay of records lo..i |
| Transform.PassShape | main.py:28-67 | A pass is six prelude calls, the fifth being goto(-x*scale, -y*scale), then exactly one rewritten call per record, in buffer order |
| Transform.RemoveFirstRemovesOne | main.py:69 | `list.remove` takes out exactly one occurrence of the token and keeps the rest |
| Transform.RemoveFirstKeepsOrder | main.py:69 | The occurrence `list.remove` takes out is the first one, and the elements before and after it keep their order |
| Transform.RemoveFirstOfPushed | main.py:26-69 | Removing a token that was just pushed, and was not in the list before, restores the list |
| Recorder.Camera.ReplayRange | main.py:35-67 | While the newest token is the pass's own, each iteration issues the rewrite of its record. Once a newer token is on top, no iteration issues anything |
| Recorder.Camera.Draw | main.py:25-69 | current_id goes up by exactly 1. The output grows by exactly one pass over the buffer under the current camera. objects, x, y and scale are untouched. With every token at most current_id beforehand, execution_ids ends as it started |
| Recorder.Camera.DrawInterruptedAt | main.py:35-69 | When a newer redraw runs while record k's call is on the pen, the older pass issues nothing after record k; only the newer pass's picture follows. It ends with the older token still listed and superseded, and with current_id no longer listed, so the removal at line 69 has nothing to remove and raises |
| Recorder.RedrawIsIdempotent | main.py:25-69 | Two redraws with nothing changed in between issue the same calls |
| Interaction.PanRoundTrip | main.py:84-87 | A drag followed by the reverse drag at the same scale restores the offset |
| Interaction.PanFollowsPointer | main.py:84-87 | After a drag, every world point appears on screen moved by exactly the drag vector |
| Interaction.PanRoundTripRedraws | main.py:84-88 | A drag followed by the reverse drag redraws the very same calls as before |
| Interaction.Scroll | main.py:90-96 | The scale ends at least 0.1, equal to 0.1 or to scale - delta/5. A redraw happens exactly when the counter plus abs(delta) exceeds 5, and the counter is then 0; otherwise it is the old value plus abs(delta) |
| Interaction.ScrollAllKeepsScaleMin | main.py:92-93 | After any non-empty run of scroll ticks, the scale is at least 0.1 |
| Interaction.ScrollAllDebounces | main.py:91-96 | Each redraw consumes more than 5 units of scroll distance, so a run of ticks redraws at most once per 6 units |
| Interaction.QuietScrollNeverRedraws | main.py:91-96 | A run of ticks whose distance, together with the pending counter, stays within 5 never redraws |
| Interaction.MouseEventHandler.constructor | main.py:72-75 | The handler is bound to the given camera and has no press on record |
| Interaction.MouseEventHandler.OnMouseDown | main.py:77-78 | The press position is remembered |
| Interaction.MouseEventHandler.OnMouseUp | main.py:80-88 | With a press on record, x and y move by the drag divided by scale, followed by one full redraw. Without a press, nothing changes and nothing is drawn |
| Interaction.MouseEventHandler.OnScroll | main.py:90-96 | The camera's scale and counter follow Scroll. A redraw happens exactly when Scroll says so, and otherwise no call is issued |
| Curves.AddLine | main.py:104-108 | Exactly pen down, a goto to the end of the segment (recorded with that end as its world point), and pen up are appended |
| Curves.LinesAt | main.py:104-108 | The records of a segment sequence hold three records per segment, and records 3i..3i+2 are those of segment i, in order |
| Curves.LinesAppend | main.py:104-108 | The records of consecutive segment runs are the concatenation of their records |
| Curves.LinesBind | main.py:104-108 | Every call `add_line` records (pendown(), goto(x, y), penup()) is one its pen method accepts, so replaying the generators' records never raises TypeError |
| Curves.KochCount | main.py:110-119 | A Koch curve of order n draws 4^n segments |
| Curves.KochLeafLength | main.py:110-119 | Every segment of a Koch curve of order n has length size/3^n |
| Curves.KochRecordsAreLines | main.py:110-119 | The records of draw_koch are those of the Koch segments, in order |
| Curves.DrawKoch | main.py:110-119 | draw_koch appends exactly the records of the Koch curve |
| Curves.SierpinskiCount | main.py:121-135 | A Sierpinski figure of order n draws 3^(n+1) segments |
| Curves.SierpinskiLeafLength | main.py:121-135 | Every segment of a Sierpinski figure of order n has length size/2^n |
| Curves.SierpinskiStartsAtOrigin | main.py:121-135 | The first segment starts at the figure's origin and heading |
| Curves.SierpinskiSecondPieceStart | main.py:130-135 | The second sub-figure starts where an advance by the full size (not size/2) leads, turned by 120 degrees |
| Curves.SierpinskiRecordsAreLines | main.py:121-135 | The records of draw_sierpinski are those of the Sierpinski segments, in order |
| Curves.DrawSierpinski | main.py:121-135 | draw_sierpinski appends exactly the records of the Sierpinski figure |
| Curves.TreeCount | main.py:137-145 | A tree of depth d draws 2*(2^d - 1) segments |
| Curves.TreeDepthBound | main.py:137-145 | With a positive shorten_by, a branch of at most 5 has no levels, and a longer one has ceil((length - 5)/shorten_by) levels, so the recursion stops |
| Curves.TreeShape | main.py:137-145 | A branch of at most 5 draws nothing. A longer one draws its trunk first and last a segment of the same length from the trunk's end at heading + 180 |
| Curves.TreeLinesUnfold | main.py:139-145 | The records of a tree level are the trunk, the left subtree, the right subtree and the return segment, in that order |
| Curves.DrawTree | main.py:137-145 | draw_tree appends exactly the records of the tree's segments |
| Curves.DragonCount | main.py:147-156 | A dragon curve of order n draws 2^n segments |
| Curves.DragonLeafLength | main.py:147-156 | Every segment of a dragon curve of order n has length size/1.414^n |
| Curves.DragonFirstHalfIgnoresSign | main.py:151 | The first half of a dragon curve is the same whatever sign is passed, because the first sub-call always uses sign 1 |
| Curves.DragonRecordsAreLines | main.py:147-156 | The records of draw_dragon are those of the dragon segments, in order |
| Curves.DrawDragon | main.py:147-156 | draw_dragon appends exactly the records of the dragon curve; the heading update after the second sub-call has no effect |

## Left out

- The screen, pen setup, key and mouse bindings and the main loop (main.py:166-190). This is UI glue. The binding for key "3" passes `angle` both positionally and by keyword to `draw_tree`, which Python rejects with a TypeError. By then `draw_fractal` has already reset the pen, lifted it, moved it to (-200, 0) and put it down (main.py:159-162), so pressing "3" wipes the current picture and records and draws nothing new. The model calls the generators directly, so that path does not arise.
- `draw_fractal` (main.py:158-164). It resets the global pen and chains a generator with one redraw; `DrawKoch` and friends followed by `Camera.Draw` cover the same steps.
- The pen object the camera stores, the screen the mouse handler stores (used only to convert window coordinates), and the generators' unused `turtle` parameter. The pen is the `output` trace.
- Converting the release event's window coordinates in `on_mouse_up` (main.py:81-82). The release position is an input of `OnMouseUp`.
- `inspect.signature` (main.py:18-19, 40-41). It is replaced by the fixed table `Params`: goto(x, y), the forward family (distance), circle(radius, extent, steps), left/right (angle), and no parameters for the rest.
- Trigonometry and floating point. `calculate_components` is the parameter `comp`, and all arithmetic is on exact reals. Argument values are reals only; non-numeric arguments are not modelled.
- The ValueError at main.py:69 under re-entrancy. `DrawInterruptedAt` stops just before that removal. A nested redraw is modelled only after a whole record's call, not at an arbitrary point inside the host's event delivery.
- Camera.Draw: the promise that `execution_ids` is restored holds only when no token exceeds `current_id` beforehand (`Valid`). The constructor and every modelled operation keep that true.
- Interaction.MouseEventHandler.OnMouseUp: a zero scale is excluded by a precondition when a press is on record, since the source would divide by zero. The scroll clamp keeps the scale at 0.1 or more, but the constructor does not enforce it.
- Recorder.Camera.Add and Recorder.Camera.Draw: a call its pen method does not accept, such as `forward()`, `goto(1, 2, 3)` or `forward(x=1)`, is recorded as in the source and issued by the model's replay. In the source, issuing it at main.py:67 raises TypeError: the later records are not drawn, and line 69 never runs, so the pass's token stays in `execution_ids`. The predicate `Binds` states which calls bind to their pen method's signature (for goto, with a y as well as an x), and `Curves.LinesBind` proves that every record the generators make is one of them. `Binds` checks binding only: a circle whose `steps` is not an integer binds but still raises inside the pen, and the model does not capture that either.
- The generators take `order` as a natural number. A negative order recurses until Python's recursion limit.
- Curves.DrawTree: branch lengths and `shorten_by` are integers, as in the program's only call (100, 15). With a branch longer than 5 and `shorten_by <= 0`, the source recurses until Python's recursion limit and raises RecursionError. By then every level has recorded its trunk (main.py:139), so about a thousand pendown/goto/penup triples stay in the never-cleared buffer, and every later redraw replays them. DrawTree excludes this case by a precondition, and the function `Tree` gives no segments there.
- `objects` is shared with the caller's list in the source. The model keeps it as a field of the camera, so aliasing with the global list is not modelled. The buffer is never cleared, in the model as in the source.

# Figure bookkeeping of two canvas programs

This project models the state machines behind two small polygon-drawing programs and
proves properties of them in Dafny. The drawing itself is not modelled.

- **5.3.py** (module `Task53`). It keeps a list of regular polygons and a one-shot flag
  `figure_click`. A click on the empty field adds a triangle of radius 40. A click on a
  figure grows that figure by one vertex: the figure's own binding sets the flag, so the
  field's click handler that runs next adds nothing. The Delete key clears the list, or
  reports an error when the list is already empty.
- **demoexam-final/widgets.py** (module `Widgets`). It keeps the drawing field's list of
  at most five figures, the index of the selected figure, and the palette's armed figure
  kind. Kinds 1, 2 and 3 have 3, 6 and 7 vertices. A click with no kind armed selects
  the figure whose centre is nearest the click, among those whose circle contains the
  click; ties go to the first index. A click with a kind armed places a figure of that
  kind, unless the field is full. A press on the selected figure toggles its move mode.
  While move mode is on, pointer motion re-centres the figure on the pointer. Button
  release ends move mode. The Delete button or key removes the selected figure.

The shared pieces are in their own modules:
- `Geometry`: integer points, squared distances, abstract polygon vertices, and the
  vertex-building loop.
- `Constants`: the values from demoexam-final/constants.py.
- `Wrappers`: the `Option`, `Result` and `Outcome` types.

Modelling choices:
- Pointer events carry integer coordinates. The source compares `sqrt(dx² + dy²)` with
  the radius and with the best distance so far. The model compares `dx² + dy²` with
  `radius²` and with the best squared distance. `Widgets.InsideAgreesWithDistance` and
  `Widgets.NearerAgreesWithDistance` show that the two comparisons agree, by way of
  `Geometry.SquaresPreserveOrder`.
- The model keeps vertices as abstract points. `Vertex(c, r, i, n)` stands for the
  `i`-th of `n` points spaced evenly on the circle of radius `r` around `c`, starting
  straight above the centre.
- In widgets.py, each `Figure` object on the field belongs to exactly one list slot and
  is never shared. So a figure is a datatype value, and `select`, `hide_selection`,
  `finish_tracking` and `__start_tracking` become updates of that slot.
- In 5.3.py, a figure is an object whose vertex count grows in place. So it is a
  Dafny class.
- Error dialogs become an `Outcome` result, and the state is left unchanged.
- A press on a figure fires two handlers: the figure's item binding runs first, then
  the canvas's click handler. This order is written out as an explicit call sequence:
  `Task53.Task53Program.PressFigure` and `Widgets.DrawingField.PressSelectedFigure`.

Three behaviours of the code worth stating:
- A right click calls the palette's `remove_selection`
  (demoexam-final/widgets.py:231, 177-181). It disarms the palette kind and leaves the
  field's figure selection alone.
- Button release sets the selected figure's move mode to false
  (demoexam-final/widgets.py:235-238, 84-85).
- Motion rebuilds the figure with `size=fig.size`, which is the class attribute
  `Figure.size` (80), not the figure's own radius. The two are equal for every figure
  the field creates.

## Model

| member | source | states |
|---|---|---|
| `Geometry.SquaredDistance` | demoexam-final/widgets.py:207-214 | the squared distance is non-negative and zero exactly when the two points coincide |
| `Geometry.SquaresPreserveOrder` | demoexam-final/widgets.py:297-298 | for non-negative reals, `a < b` holds exactly when `a² < b²`, so the inside test and the nearer-than test can use squared distances |
| `Geometry.GetVertexes` | 5.3.py:18-27 | the loop returns exactly `angles` vertices; the i-th is the i-th point of the regular polygon around the centre with that radius, so the vertices come in step order 0 to `angles`-1, starting from step 0, which the abstract `Vertex` names as the top point |
| `Widgets.AnglesOf` | demoexam-final/widgets.py:28-35 | a vertex count exists exactly for kinds 1, 2 and 3, and it is at least 3 |
| `Widgets.NewFigureKinds` | demoexam-final/widgets.py:17-45 | the constructor gives kind 1 three vertices, kind 2 six and kind 3 seven, and keeps centre, size and flags; any other kind fails with the "Incorrect figure type" error |
| `Widgets.NewFigure` | demoexam-final/widgets.py:17-45 | for kind 1, 2 or 3 it returns the figure with that kind's vertex count and the given centre, size and flags (well formed when the size is the default); for any other kind it returns `IncorrectFigureType` and no figure |
| `Widgets.Inside` | demoexam-final/widgets.py:298 | the inside test on squared distances; a figure contains its own centre exactly when its radius is positive |
| `Widgets.InsideAgreesWithDistance` | demoexam-final/widgets.py:297-298 | for the square-rooted distance `d` that `distance` returns, the test `d < figure.radius` holds exactly when `Inside` does |
| `Widgets.NearerAgreesWithDistance` | demoexam-final/widgets.py:297-298 | for the square-rooted distances of two centres, `d < min_d` holds exactly when the first squared distance is below the second |
| `Widgets.FindMinDistFigureIndex` | demoexam-final/widgets.py:291-302 | returns none exactly when no figure's circle strictly contains the click; otherwise returns a containing figure whose distance is minimal among containing figures and strictly smaller than that of every earlier containing figure (first index on ties) |
| `Widgets.ScanResultUnique` | demoexam-final/widgets.py:291-302 | the scan's specification determines its answer: two answers that meet it are equal |
| `Widgets.ScanIgnoresFlags` | demoexam-final/widgets.py:280-281 | the scan's answer depends only on centres and radii, so clearing the selection flags first does not change it |
| `Widgets.SelectionClickMarksAtMostOne` | demoexam-final/widgets.py:278-289 | after a selection click no two figures are selected; some figure is selected exactly when some figure contains the click; nothing but the selection flags changed |
| `Widgets.FiguresList.constructor` | demoexam-final/widgets.py:144-148 | the palette starts with no kind armed |
| `Widgets.FiguresList.ChangeSelection` | demoexam-final/widgets.py:150-158 | choosing a palette item arms its kind |
| `Widgets.FiguresList.RemoveSelection` | demoexam-final/widgets.py:177-181 | the palette goes back to `NONE_FIGURE` |
| `Widgets.FiguresList.GetSelectedNum` | demoexam-final/widgets.py:173-175 | returns the armed kind |
| `Widgets.DrawingField.constructor` | demoexam-final/widgets.py:227-228 | the field starts empty with no selection, and the class invariant holds |
| `Widgets.DrawingField.CheckRelease` | demoexam-final/widgets.py:235-238 | with a selection, only that figure's move mode changes, to false; without one nothing changes; the invariant is kept |
| `Widgets.DrawingField.DelSelected` | demoexam-final/widgets.py:240-248 | with a selection, exactly that entry is removed, the others keep their order, the index becomes none, and the result is success; without one the list is unchanged and the "no selected figure" error is returned; the invariant is kept |
| `Widgets.DrawingField.CheckMotion` | demoexam-final/widgets.py:250-262 | only when the selected figure is in move mode, that slot alone is replaced by the same figure centred on the pointer with radius `Figure.size`, still selected and in move mode; otherwise nothing changes; the invariant is kept |
| `Widgets.DrawingField.StartTracking` | demoexam-final/widgets.py:71-88 | a press on the selected figure (the only figure with that binding) toggles its move mode and changes nothing else |
| `Widgets.DrawingField.HideAllSelections` | demoexam-final/widgets.py:286-289 | every figure's selection flag is cleared and nothing else changes |
| `Widgets.DrawingField.SelectFigure` | demoexam-final/widgets.py:278-289 | the index becomes the scan's answer for the click, that figure alone gets the selection flag, and all other fields are unchanged; the invariant is kept |
| `Widgets.DrawingField.CheckClick` | demoexam-final/widgets.py:264-276 | with no kind armed it is a selection click; with a kind armed and fewer than 5 figures it appends exactly one figure of that kind at the click and leaves the earlier entries alone; with 5 figures it returns the capacity error and changes nothing; an unknown kind returns the constructor's error and changes nothing; the invariant (at most 5 figures, index none or valid, flag set exactly at the index, every figure well formed) is kept |
| `Widgets.DrawingField.PressSelectedFigure` | demoexam-final/widgets.py:230-233 | the selected figure's binding toggles its move mode, then the field's click handler runs on that toggled list: with no kind armed the result is a selection click on it, so a nearer overlapping figure can take the selection and leave the pressed one unselected with move mode on; with a kind armed the index stays on the pressed figure, and a figure is appended, or the capacity or constructor error is returned with only the toggle applied |
| `Task53.Figure.constructor` | 5.3.py:9-16 | a new figure has the given centre and vertex count, radius 40, and exactly that many polygon vertices |
| `Task53.Figure.AddVertex` | 5.3.py:40-45 | the vertex count grows by exactly one, the vertex list is rebuilt to match it, and centre and radius are unchanged |
| `Task53.Figure.Transform` | 5.3.py:33-38 | sets the global flag and grows the figure by one vertex, with centre and radius unchanged |
| `Task53.Task53Program.constructor` | 5.3.py:70-71 | the program starts with no figures and the flag unset |
| `Task53.Task53Program.CheckClick` | 5.3.py:56-60 | with the flag unset it appends exactly one fresh triangle of radius 40 at the click and keeps the earlier entries; with the flag set the list is unchanged; either way the flag is false afterwards and every figure keeps at least 3 vertices matching its vertex list |
| `Task53.Task53Program.DelAllFigures` | 5.3.py:48-53 | on an empty list it returns the "no figures" error and changes nothing; otherwise the list becomes empty |
| `Task53.Task53Program.PressFigure` | 5.3.py:33-60 | a press on a figure (its transform and then the field's click) grows that figure by one vertex, leaves the list unchanged and clears the flag |

## Left out

- All drawing is left out: polygons, outlines, canvas item deletion, the palette's
  highlight rectangles, `tag_bind`/`bind`, packing and window construction
  (demoexam-final/main.py). The model keeps only the state these calls are tied to.
- Error dialogs (`mb.showerror`) are modelled as a returned error with the state
  unchanged. The interpreter printing an uncaught `ValueError` is modelled as one too.
- The vertex coordinates use `cos`, `sin`, `pi` and floating point, and are not
  computed. Vertices are abstract points that say which point of which circle they are.
  In widgets.py only the vertex count is kept.
- The distance uses a floating `** 0.5`, which is replaced by exact integer squared
  distances. The model assumes the rounded square root orders distinct small integers
  the same way exact arithmetic does. This floating-point assumption is not proved here.
- The toolkit decides whether a press hits a figure's polygon, and in which order the
  bindings fire. Both are inputs to the model: the press methods take the pressed figure
  as a parameter, and the item binding is run before the canvas binding.
- The palette's `ChangeSelection` accepts any integer. The three palette items
  only ever pass kinds 1, 2 and 3 (demoexam-final/widgets.py:162-164). So the
  invalid-kind path of `Widgets.DrawingField.CheckClick` is modelled but cannot be
  reached from the interface.
- The palette thumbnails' own figures (radius 90), the Exit button (`exit()`), the
  layout constants and `Figure.delete` are drawing only, and are not modelled.

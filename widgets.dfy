/**
  Bookkeeping of the second program's drawing field (demoexam-final/widgets.py): the
  figures on the field, the single field selection, the move-mode toggle and the
  palette that arms a figure kind for placement.

  A Python `Figure` object on the field belongs to exactly one slot of the field's list
  and is never shared, so it is modelled as a value; its in-place updates (`select`,
  `hide_selection`, `finish_tracking`, `__start_tracking`) are updates of that slot.
  Drawing on the canvas is not modelled.
 */
module Widgets {
  import opened Wrappers
  import opened Constants
  import opened Geometry

  /** The error dialogs of the field, and the exception of the figure constructor. */
  datatype Error =
    | IncorrectFigureType   // the ValueError raised for an unknown kind
    | NoSelectedFigure      // "There are no selected figure"
    | TooManyFigures        // "There are also 5 figures on the field"

  /**
    A figure on the field: its kind, its vertex count, its integer centre, its radius,
    whether it is drawn as selected, and whether it follows the pointer.
   */
  datatype Figure = Figure(kind: int, angles: nat, center: Point, radius: int,
                           selected: bool, moveMode: bool)

  /** Vertex count of a figure kind; no count for a kind the palette does not offer. */
  function AnglesOf(kind: int): (r: Option<nat>)
    ensures r.Some? <==> kind in {FIRST_FIGURE, SECOND_FIGURE, THIRD_FIGURE}
    ensures r.Some? ==> r.value >= 3
  {
    if kind == FIRST_FIGURE then Some(FIRST_FIGURE_ANGLES)
    else if kind == SECOND_FIGURE then Some(SECOND_FIGURE_ANGLES)
    else if kind == THIRD_FIGURE then Some(THIRD_FIGURE_ANGLES)
    else None
  }

  /** The figure constructor: fails for an unknown kind, as `Figure.__init__` raises ValueError. */
  function NewFigure(kind: int, center: Point, size: int, moveMode: bool, selected: bool): (r: Result<Figure, Error>)
    ensures r.Failure? <==> kind !in {FIRST_FIGURE, SECOND_FIGURE, THIRD_FIGURE}
    ensures r.Failure? ==> r.error == IncorrectFigureType
    ensures r.Success? ==>
      && r.value.kind == kind && Some(r.value.angles) == AnglesOf(kind) && r.value.angles >= 3
      && r.value.center == center && r.value.radius == size
      && r.value.selected == selected && r.value.moveMode == moveMode
    ensures r.Success? && size == FIGURE_SIZE ==> WellFormed(r.value)
  {
    match AnglesOf(kind)
    case Some(n) => Success(Figure(kind, n, center, size, selected, moveMode))
    case None => Failure(IncorrectFigureType)
  }

  /** Kinds 1, 2 and 3 give 3, 6 and 7 vertices; every other kind is refused. */
  lemma NewFigureKinds(kind: int, center: Point, size: int, moveMode: bool, selected: bool)
    ensures kind == FIRST_FIGURE ==>
      NewFigure(kind, center, size, moveMode, selected) == Success(Figure(kind, 3, center, size, selected, moveMode))
    ensures kind == SECOND_FIGURE ==>
      NewFigure(kind, center, size, moveMode, selected) == Success(Figure(kind, 6, center, size, selected, moveMode))
    ensures kind == THIRD_FIGURE ==>
      NewFigure(kind, center, size, moveMode, selected) == Success(Figure(kind, 7, center, size, selected, moveMode))
    ensures kind !in {FIRST_FIGURE, SECOND_FIGURE, THIRD_FIGURE} ==>
      NewFigure(kind, center, size, moveMode, selected) == Failure(IncorrectFigureType)
  {
  }

  /** A figure as the field creates it: a known kind, the matching vertex count, the default radius. */
  ghost predicate WellFormed(f: Figure)
  {
    AnglesOf(f.kind) == Some(f.angles) && f.radius == FIGURE_SIZE
  }

  /** The click lands strictly inside the figure's circumscribed circle (distance < radius). */
  predicate Inside(f: Figure, p: Point)
    ensures p == f.center ==> (Inside(f, p) <==> 0 < f.radius)
  {
    0 < f.radius && SquaredDistance(p, f.center) < f.radius * f.radius
  }

  /**
    `DrawingField.distance` takes the square root of the squared distance. For that root
    `d`, the test `d < figure.radius` decides the same as `Inside`.
   */
  lemma InsideAgreesWithDistance(f: Figure, p: Point, d: real)
    requires 0.0 <= d && d * d == SquaredDistance(p, f.center) as real
    ensures d < f.radius as real <==> Inside(f, p)
  {
    if 0 < f.radius {
      SquaresPreserveOrder(d, f.radius as real);
      assert (f.radius as real) * (f.radius as real) == (f.radius * f.radius) as real;
    }
  }

  /**
    For the square-rooted distances `d1` and `d2` of two centres from the click, the test
    `d < min_d` decides the same as comparing the squared distances.
   */
  lemma NearerAgreesWithDistance(p: Point, c1: Point, c2: Point, d1: real, d2: real)
    requires 0.0 <= d1 && d1 * d1 == SquaredDistance(p, c1) as real
    requires 0.0 <= d2 && d2 * d2 == SquaredDistance(p, c2) as real
    ensures d1 < d2 <==> SquaredDistance(p, c1) < SquaredDistance(p, c2)
  {
    SquaresPreserveOrder(d1, d2);
  }

  /**
    Figure `k` contains the click, is at least as close to it as every other figure that
    contains it, and strictly closer than every earlier one that does.
   */
  ghost predicate IsNearest(figs: seq<Figure>, p: Point, k: nat)
  {
    && k < |figs|
    && Inside(figs[k], p)
    && (forall j :: 0 <= j < |figs| && Inside(figs[j], p) ==>
          SquaredDistance(p, figs[k].center) <= SquaredDistance(p, figs[j].center))
    && (forall j :: 0 <= j < k && Inside(figs[j], p) ==>
          SquaredDistance(p, figs[k].center) < SquaredDistance(p, figs[j].center))
  }

  /** What the nearest-figure scan must return: none exactly when no figure contains the click. */
  ghost predicate IsScanResult(figs: seq<Figure>, p: Point, idx: Option<nat>)
  {
    match idx
    case None => forall j :: 0 <= j < |figs| ==> !Inside(figs[j], p)
    case Some(k) => IsNearest(figs, p, k)
  }

  /** At most one index answers the scan. */
  lemma ScanResultUnique(figs: seq<Figure>, p: Point, a: Option<nat>, b: Option<nat>)
    requires IsScanResult(figs, p, a) && IsScanResult(figs, p, b)
    ensures a == b
  {
  }

  /** The scan looks only at centres and radii, not at the selection or move-mode flags. */
  lemma ScanIgnoresFlags(a: seq<Figure>, b: seq<Figure>, p: Point, idx: Option<nat>)
    requires |a| == |b|
    requires forall i :: 0 <= i < |a| ==> a[i].center == b[i].center && a[i].radius == b[i].radius
    requires IsScanResult(a, p, idx)
    ensures IsScanResult(b, p, idx)
  {
  }

  /**
    The linear nearest-centre scan: keeps the closest figure seen so far that contains
    the click, replacing it only on a strictly smaller distance.
   */
  method FindMinDistFigureIndex(figs: seq<Figure>, p: Point) returns (idx: Option<nat>)
    ensures IsScanResult(figs, p, idx)
  {
    var minD: Option<int> := None;
    idx := None;
    for i := 0 to |figs|
      invariant minD.None? <==> idx.None?
      invariant idx.Some? ==> idx.value < i && minD.value == SquaredDistance(p, figs[idx.value].center)
      invariant IsScanResult(figs[..i], p, idx)
    {
      var d := SquaredDistance(p, figs[i].center);
      if (minD.None? || d < minD.value) && Inside(figs[i], p) {
        minD := Some(d);
        idx := Some(i);
      }
      assert figs[..i + 1] == figs[..i] + [figs[i]];
    }
    assert figs[..|figs|] == figs;
  }

  /** The side palette, `FiguresList`: which figure kind, if any, is armed. */
  class FiguresList {
    var selectedFigure: int

    constructor ()
      ensures selectedFigure == NONE_FIGURE
    {
      selectedFigure := NONE_FIGURE;
    }

    /** A palette item was clicked: arm its kind. */
    method ChangeSelection(newIndex: int)
      modifies this
      ensures selectedFigure == newIndex
    {
      selectedFigure := newIndex;
    }

    /** Right click on the field: disarm the palette. */
    method RemoveSelection()
      modifies this
      ensures selectedFigure == NONE_FIGURE
    {
      selectedFigure := NONE_FIGURE;
    }

    method GetSelectedNum() returns (num: int)
      ensures num == selectedFigure
    {
      num := selectedFigure;
    }
  }

  /**
    After a selection click, `after` is `before` with every selection flag cleared except
    that of the scan's answer `idx`, which is set.
   */
  ghost predicate IsSelectionClick(before: seq<Figure>, p: Point, after: seq<Figure>, idx: Option<nat>)
  {
    && IsScanResult(before, p, idx)
    && |after| == |before|
    && forall i :: 0 <= i < |after| ==> after[i] == before[i].(selected := idx == Some(i))
  }

  /**
    A selection click leaves at most one figure selected, and leaves one selected exactly
    when some figure contains the click; nothing but the selection flags changes.
   */
  lemma SelectionClickMarksAtMostOne(before: seq<Figure>, p: Point, after: seq<Figure>, idx: Option<nat>)
    requires IsSelectionClick(before, p, after, idx)
    ensures forall i, j :: 0 <= i < j < |after| ==> !(after[i].selected && after[j].selected)
    ensures (exists i :: 0 <= i < |after| && after[i].selected) <==>
            (exists j :: 0 <= j < |before| && Inside(before[j], p))
    ensures forall i :: 0 <= i < |after| ==> after[i].(selected := before[i].selected) == before[i]
  {
  }

  /** `figs` with the move mode of slot `i` flipped, as `__start_tracking` leaves it. */
  ghost function Toggled(figs: seq<Figure>, i: nat): seq<Figure>
    requires i < |figs|
  {
    figs[i := figs[i].(moveMode := !figs[i].moveMode)]
  }

  /** The drawing field: the figures placed on it and the index of the selected one. */
  class DrawingField {
    var figures: seq<Figure>
    var selectedIndex: Option<nat>

    /**
      At most five figures; the selected index is none or names a slot; exactly the
      figure at that slot is drawn as selected; every figure is well formed.
     */
    ghost predicate Valid()
      reads this
    {
      && |figures| <= MAX_NUMBER_OF_FIGURES_ON_FIELD
      && (selectedIndex.Some? ==> selectedIndex.value < |figures|)
      && (forall i :: 0 <= i < |figures| ==> (figures[i].selected <==> selectedIndex == Some(i)))
      && (forall i :: 0 <= i < |figures| ==> WellFormed(figures[i]))
    }

    constructor ()
      ensures Valid()
      ensures figures == [] && selectedIndex == None
    {
      figures := [];
      selectedIndex := None;
    }

    /** Button release: the selected figure, if any, stops following the pointer. */
    method CheckRelease()
      requires Valid()
      modifies this
      ensures Valid()
      ensures selectedIndex == old(selectedIndex)
      ensures match old(selectedIndex)
        case Some(i) => figures == old(figures)[i := old(figures)[i].(moveMode := false)]
        case None => figures == old(figures)
    {
      if selectedIndex.Some? {
        var i := selectedIndex.value;
        figures := figures[i := figures[i].(moveMode := false)];
      }
    }

    /** The Delete button or key: remove the selected figure, or report that none is selected. */
    method DelSelected() returns (r: Outcome<Error>)
      requires Valid()
      modifies this
      ensures Valid()
      ensures match old(selectedIndex)
        case Some(i) =>
          r == Pass && selectedIndex == None &&
          figures == old(figures)[..i] + old(figures)[i + 1..]
        case None =>
          r == Fail(NoSelectedFigure) && selectedIndex == None && figures == old(figures)
    {
      if selectedIndex.Some? {
        var i := selectedIndex.value;
        figures := figures[..i] + figures[i + 1..];
        selectedIndex := None;
        r := Pass;
        forall j | 0 <= j < |figures|
          ensures !figures[j].selected && WellFormed(figures[j])
        {
          if j < i {
            assert figures[j] == old(figures)[j];
          } else {
            assert figures[j] == old(figures)[j + 1];
          }
        }
      } else {
        r := Fail(NoSelectedFigure);
      }
    }

    /**
      Pointer motion: a selected figure in move mode is replaced by a copy centred on the
      pointer with the default size, still selected and still in move mode.
     */
    method CheckMotion(p: Point)
      requires Valid()
      modifies this
      ensures Valid()
      ensures selectedIndex == old(selectedIndex)
      ensures match old(selectedIndex)
        case Some(i) =>
          if old(figures)[i].moveMode
          then figures == old(figures)[i := old(figures)[i].(center := p, radius := FIGURE_SIZE)]
          else figures == old(figures)
        case None => figures == old(figures)
    {
      if selectedIndex.Some? {
        var index := selectedIndex.value;
        var fig := figures[index];
        if fig.moveMode {
          var moved := NewFigure(fig.kind, p, FIGURE_SIZE, true, true);
          assert moved == Success(fig.(center := p, radius := FIGURE_SIZE));
          figures := figures[index := moved.value];
        }
      }
    }

    /** A click on the selected figure's polygon toggles its move mode. */
    method StartTracking(i: nat)
      requires Valid()
      requires i < |figures| && figures[i].selected
      modifies this
      ensures Valid()
      ensures selectedIndex == old(selectedIndex) == Some(i)
      ensures figures == Toggled(old(figures), i)
    {
      figures := figures[i := figures[i].(moveMode := !figures[i].moveMode)];
    }

    /** Clear every figure's selection flag. */
    method HideAllSelections()
      modifies this
      ensures selectedIndex == old(selectedIndex)
      ensures |figures| == |old(figures)|
      ensures forall i :: 0 <= i < |figures| ==> figures[i] == old(figures)[i].(selected := false)
    {
      var i := 0;
      while i < |figures|
        invariant 0 <= i <= |figures| == |old(figures)|
        invariant selectedIndex == old(selectedIndex)
        invariant forall j :: 0 <= j < i ==> figures[j] == old(figures)[j].(selected := false)
        invariant forall j :: i <= j < |figures| ==> figures[j] == old(figures)[j]
      {
        figures := figures[i := figures[i].(selected := false)];
        i := i + 1;
      }
    }

    /** A click with no kind armed: select the nearest figure that contains the click, if any. */
    method SelectFigure(p: Point)
      requires Valid()
      modifies this
      ensures Valid()
      ensures IsSelectionClick(old(figures), p, figures, selectedIndex)
    {
      ghost var before := figures;
      HideAllSelections();
      var index := FindMinDistFigureIndex(figures, p);
      ScanIgnoresFlags(figures, before, p, index);
      if index.Some? {
        var k := index.value;
        figures := figures[k := figures[k].(selected := true)];
      }
      selectedIndex := index;
    }

    /**
      A left click on the field: with no kind armed it is a selection click; with a kind
      armed it places a figure of that kind at the click, unless the field is full.
     */
    method CheckClick(p: Point, palette: FiguresList) returns (r: Outcome<Error>)
      requires Valid()
      modifies this
      ensures Valid()
      ensures palette.selectedFigure == NONE_FIGURE ==>
        r == Pass && IsSelectionClick(old(figures), p, figures, selectedIndex)
      ensures palette.selectedFigure != NONE_FIGURE ==> selectedIndex == old(selectedIndex)
      ensures palette.selectedFigure != NONE_FIGURE && |old(figures)| >= MAX_NUMBER_OF_FIGURES_ON_FIELD ==>
        r == Fail(TooManyFigures) && figures == old(figures)
      ensures palette.selectedFigure != NONE_FIGURE && |old(figures)| < MAX_NUMBER_OF_FIGURES_ON_FIELD ==>
        match NewFigure(palette.selectedFigure, p, FIGURE_SIZE, false, false)
        case Success(f) => r == Pass && figures == old(figures) + [f]
        case Failure(e) => r == Fail(e) && figures == old(figures)
    {
      var selNum := palette.GetSelectedNum();
      if selNum == NONE_FIGURE {
        SelectFigure(p);
        r := Pass;
      } else if |figures| < MAX_NUMBER_OF_FIGURES_ON_FIELD {
        var created := NewFigure(selNum, p, FIGURE_SIZE, false, false);
        match created
        case Success(f) =>
          figures := figures + [f];
          r := Pass;
        case Failure(e) =>
          r := Fail(e);
      } else {
        r := Fail(TooManyFigures);
      }
    }

    /**
      A press on the selected figure: its own binding toggles move mode, then the field's
      click handler runs on the toggled list. With no kind armed the selection may pass to
      a nearer overlapping figure, leaving the pressed one unselected with its move mode on.
     */
    method PressSelectedFigure(i: nat, p: Point, palette: FiguresList) returns (r: Outcome<Error>)
      requires Valid()
      requires i < |figures| && figures[i].selected
      modifies this
      ensures Valid()
      ensures palette.selectedFigure == NONE_FIGURE ==>
        r == Pass && IsSelectionClick(Toggled(old(figures), i), p, figures, selectedIndex)
      ensures palette.selectedFigure != NONE_FIGURE ==> selectedIndex == Some(i)
      ensures palette.selectedFigure != NONE_FIGURE && |old(figures)| >= MAX_NUMBER_OF_FIGURES_ON_FIELD ==>
        r == Fail(TooManyFigures) && figures == Toggled(old(figures), i)
      ensures palette.selectedFigure != NONE_FIGURE && |old(figures)| < MAX_NUMBER_OF_FIGURES_ON_FIELD ==>
        match NewFigure(palette.selectedFigure, p, FIGURE_SIZE, false, false)
        case Success(f) => r == Pass && figures == Toggled(old(figures), i) + [f]
        case Failure(e) => r == Fail(e) && figures == Toggled(old(figures), i)
    {
      StartTracking(i);
      r := CheckClick(p, palette);
    }
  }
}

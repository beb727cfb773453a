/**
  The first program (5.3.py): a click on the empty field adds a triangle, a click on a
  figure grows it by one vertex, and the Delete key clears the field.

  The module-level globals `figures_list` and `figure_click` are the fields of a
  `Task53Program` object; every figure is an object whose vertex count grows in place.
  Drawing on the canvas is not modelled.
 */
module Task53 {
  import opened Wrappers
  import opened Geometry

  /** Radius of the circle every figure is inscribed in. */
  const BIG_RADIUS: int := 40

  /** Vertex count of a figure created by a field click. */
  const NEW_FIGURE_ANGLES: nat := 3

  /** The error dialog of the Delete key. */
  datatype Error = NoFiguresOnField   // "There are no figures on the field"

  class Figure {
    var center: Point
    var angles: nat
    var bigRadius: int
    var vertexes: seq<Vertex>

    /** The vertex list is exactly the regular polygon of the current centre, count and radius. */
    ghost predicate Valid()
      reads this
    {
      angles > 0 && IsPolygonOf(vertexes, center, bigRadius, angles)
    }

    constructor (center: Point, angles: nat)
      requires angles > 0
      ensures Valid()
      ensures this.center == center && this.angles == angles && bigRadius == BIG_RADIUS
    {
      var vs := GetVertexes(center, BIG_RADIUS, angles);
      this.center := center;
      this.angles := angles;
      bigRadius := BIG_RADIUS;
      vertexes := vs;
    }

    /** One more vertex; the vertex list is rebuilt for the new count. */
    method AddVertex()
      requires Valid()
      modifies this
      ensures Valid()
      ensures angles == old(angles) + 1
      ensures center == old(center) && bigRadius == old(bigRadius)
    {
      angles := angles + 1;
      vertexes := GetVertexes(center, bigRadius, angles);
    }

    /**
      The figure's click binding: records in the global flag that a figure was hit,
      then grows the figure by one vertex.
     */
    method Transform(program: Task53Program)
      requires Valid()
      modifies this, program`figureClick
      ensures Valid()
      ensures program.figureClick
      ensures angles == old(angles) + 1
      ensures center == old(center) && bigRadius == old(bigRadius)
    {
      program.figureClick := true;
      AddVertex();
    }
  }

  /** The global state of the program: the figures drawn on the field and the one-shot flag. */
  class Task53Program {
    var figures: seq<Figure>
    var figureClick: bool

    /** Every figure on the field is a consistent polygon with at least three vertices. */
    ghost predicate Valid()
      reads this, figures
    {
      forall i :: 0 <= i < |figures| ==> figures[i].Valid() && figures[i].angles >= 3
    }

    constructor ()
      ensures Valid()
      ensures figures == [] && !figureClick
    {
      figures := [];
      figureClick := false;
    }

    /**
      The field's click binding: unless a figure's own binding has just set the flag, a
      triangle is added at the click; either way the flag is cleared.
     */
    method CheckClick(p: Point)
      requires Valid()
      modifies this
      ensures Valid()
      ensures !figureClick
      ensures old(figureClick) ==> figures == old(figures)
      ensures !old(figureClick) ==>
        && |figures| == |old(figures)| + 1
        && figures[..|old(figures)|] == old(figures)
        && fresh(figures[|old(figures)|])
        && figures[|old(figures)|].center == p
        && figures[|old(figures)|].angles == NEW_FIGURE_ANGLES
        && figures[|old(figures)|].bigRadius == BIG_RADIUS
    {
      if !figureClick {
        var f := new Figure(p, NEW_FIGURE_ANGLES);
        figures := figures + [f];
      }
      figureClick := false;
    }

    /** The Delete key: clear the field, or report that it is already empty. */
    method DelAllFigures() returns (r: Outcome<Error>)
      requires Valid()
      modifies this
      ensures Valid()
      ensures figureClick == old(figureClick)
      ensures |old(figures)| == 0 ==> r == Fail(NoFiguresOnField) && figures == old(figures)
      ensures |old(figures)| != 0 ==> r == Pass && figures == []
    {
      if |figures| == 0 {
        r := Fail(NoFiguresOnField);
      } else {
        figures := [];
        r := Pass;
      }
    }

    /**
      A press on figure `f`: its binding runs first, then the field's. The figure grows by
      one vertex in its slot and the list is otherwise untouched: no triangle is added.
     */
    method PressFigure(f: Figure, p: Point)
      requires Valid()
      requires f in figures
      modifies this, f
      ensures Valid()
      ensures figures == old(figures)
      ensures !figureClick
      ensures f.angles == old(f.angles) + 1
      ensures f.center == old(f.center) && f.bigRadius == old(f.bigRadius)
    {
      f.Transform(this);
      CheckClick(p);
    }
  }
}

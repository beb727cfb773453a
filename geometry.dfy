/**
  Points, distances and regular-polygon vertices.

  Pointer events carry integer coordinates, so distances are compared through their
  squares and never through a square root. The trigonometric vertex coordinates are
  kept abstract: a vertex records which point of which circle it is.
 */
module Geometry {

  datatype Point = Point(x: int, y: int)

  /** The square of the Euclidean distance between two points. */
  function SquaredDistance(p: Point, q: Point): (d: int)
    ensures d >= 0
    ensures d == 0 <==> p == q
  {
    var dx, dy := p.x - q.x, p.y - q.y;
    assert dx * dx >= 0 && dy * dy >= 0;
    assert dx != 0 ==> dx * dx > 0;
    assert dy != 0 ==> dy * dy > 0;
    dx * dx + dy * dy
  }

  /**
    Comparing squares of non-negative quantities decides the same as comparing the
    quantities: this is why `d < r` and `d < min_d` on square-rooted distances can be
    decided on squared distances.
   */
  lemma SquaresPreserveOrder(a: real, b: real)
    requires 0.0 <= a && 0.0 <= b
    ensures a < b <==> a * a < b * b
  {
    var u, v := b - a, b + a;
    assert b * b - a * a == u * v;
    if a < b {
      assert u > 0.0 && v > 0.0;
      PositiveProduct(u, v);
    } else if b < a {
      assert -u > 0.0 && v > 0.0;
      PositiveProduct(-u, v);
    }
  }

  lemma PositiveProduct(u: real, v: real)
    requires u > 0.0 && v > 0.0
    ensures u * v > 0.0
  {
  }

  /**
    The `step`-th of `count` points spaced evenly on the circle of the given radius
    around `center`, starting straight above the centre (at -90 degrees) and advancing
    by 360/count degrees per step.
   */
  datatype Vertex = Vertex(center: Point, radius: int, step: nat, count: nat)

  /** `vs` lists the vertices of the regular `n`-gon of circumradius `r` around `c`, in order. */
  ghost predicate IsPolygonOf(vs: seq<Vertex>, c: Point, r: int, n: nat)
  {
    |vs| == n && forall i :: 0 <= i < n ==> vs[i] == Vertex(c, r, i, n)
  }

  /**
    Builds the vertex list of a regular polygon one vertex at a time. `__get_vertexes`
    divides the full turn by the vertex count, so the count must be positive.
   */
  method GetVertexes(center: Point, radius: int, angles: nat) returns (vertexes: seq<Vertex>)
    requires angles > 0
    ensures IsPolygonOf(vertexes, center, radius, angles)
  {
    vertexes := [];
    for i := 0 to angles
      invariant |vertexes| == i
      invariant forall j :: 0 <= j < i ==> vertexes[j] == Vertex(center, radius, j, angles)
    {
      vertexes := vertexes + [Vertex(center, radius, i, angles)];
    }
  }
}

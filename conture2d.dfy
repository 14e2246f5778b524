/**
 * A contour graph (conture2d.h): an append-only list of points, each with
 * the indices of the lines touching it, and a list of lines between two
 * distinct points.
 */
module Conture2D {
  /** Point2D (Point2DBase<double>) as the contour stores it. */
  datatype Point2D = Point2D(x: real, y: real)

  /** Line2D: a connection between two point ids, with a slope. */
  datatype Line2D = Line2D(nodeAid: nat, nodeBid: nat, slope: real) {
    /** The getters give back what the line was built with. */
    function GetNodeAid(): (r: nat)
      ensures r == nodeAid
    {
      nodeAid
    }

    function GetNodeBid(): (r: nat)
      ensures r == nodeBid
    {
      nodeBid
    }

    function GetSlope(): (r: real)
      ensures r == slope
    {
      slope
    }
  }

  /** LineNode: a point and the indices of the lines connected to it. */
  datatype LineNode = LineNode(point: Point2D, lineIndices: seq<nat>) {
    /** getPoint: the point the node was built with, whatever lines are added. */
    function GetPoint(): (r: Point2D)
      ensures r == point
    {
      point
    }

    /** addLineIndex: appends one index and keeps the point. */
    function AddLineIndex(index: nat): (r: LineNode)
      ensures r.point == point && r.lineIndices == lineIndices + [index]
      ensures forall l :: l in r.lineIndices <==> l in lineIndices || l == index
    {
      LineNode(point, lineIndices + [index])
    }
  }

  /** A new node: the point with no lines yet. */
  function NewNode(p: Point2D): (r: LineNode)
    ensures r.GetPoint() == p && r.lineIndices == []
  {
    LineNode(p, [])
  }

  /** The diagnostic addLine prints for an endpoint index out of range. */
  const INVALID_POINT_INDEX: string := "Invalid pointindex"

  class Conture {
    var lines: seq<Line2D>
    var points: seq<LineNode>
    /** What was written to the error stream. */
    var diagnostics: seq<string>
    /** The points passed to addPoint, in order. */
    ghost var added: seq<Point2D>

    /**
     * Every node holds the point it was added with; every line joins two
     * distinct existing points and is listed at both; every index a node
     * lists names a line touching that node.
     */
    ghost predicate Valid()
      reads this
    {
      |added| == |points| &&
      (forall p :: 0 <= p < |points| ==> points[p].point == added[p]) &&
      (forall l :: 0 <= l < |lines| ==>
         lines[l].nodeAid != lines[l].nodeBid &&
         lines[l].nodeAid < |points| && lines[l].nodeBid < |points| &&
         l in points[lines[l].nodeAid].lineIndices && l in points[lines[l].nodeBid].lineIndices) &&
      (forall p, k :: 0 <= p < |points| && 0 <= k < |points[p].lineIndices| ==>
         points[p].lineIndices[k] < |lines| &&
         (lines[points[p].lineIndices[k]].nodeAid == p || lines[points[p].lineIndices[k]].nodeBid == p))
    }

    constructor()
      ensures Valid() && lines == [] && points == [] && diagnostics == [] && added == []
    {
      lines := [];
      points := [];
      diagnostics := [];
      added := [];
    }

    /** addPoint: appends a node without lines and returns its index, the old point count. */
    method AddPoint(p: Point2D) returns (newIndex: nat)
      requires Valid()
      modifies this
      ensures Valid()
      ensures newIndex == old(|points|) && points == old(points) + [NewNode(p)]
      ensures added == old(added) + [p]
      ensures lines == old(lines) && diagnostics == old(diagnostics)
    {
      newIndex := |points|;
      points := points + [NewNode(p)];
      added := added + [p];
    }

    /**
     * addLine: a line from a point to itself is ignored; an index out of
     * range only prints a diagnostic; otherwise the line is appended and its
     * index is recorded at both endpoints.
     */
    method AddLine(pIndex1: nat, pIndex2: nat, slope: real := -1.0)
      requires Valid()
      modifies this
      ensures Valid() && added == old(added) && |points| == old(|points|)
      ensures pIndex1 == pIndex2 ==>
        lines == old(lines) && points == old(points) && diagnostics == old(diagnostics)
      ensures pIndex1 != pIndex2 && (pIndex1 >= old(|points|) || pIndex2 >= old(|points|)) ==>
        lines == old(lines) && points == old(points) && diagnostics == old(diagnostics) + [INVALID_POINT_INDEX]
      ensures pIndex1 != pIndex2 && pIndex1 < old(|points|) && pIndex2 < old(|points|) ==>
        lines == old(lines) + [Line2D(pIndex1, pIndex2, slope)] && diagnostics == old(diagnostics) &&
        forall p :: 0 <= p < |points| ==>
          points[p] == if p == pIndex1 || p == pIndex2 then old(points[p]).AddLineIndex(old(|lines|)) else old(points[p])
    {
      if pIndex1 == pIndex2 {
        return;
      }
      var numPoints := |points|;
      if pIndex1 < numPoints && pIndex2 < numPoints {
        Connect(pIndex1, pIndex2, slope);
      } else {
        diagnostics := diagnostics + [INVALID_POINT_INDEX];
      }
    }

    /** The valid case of addLine: the line is appended and listed at both endpoints. */
    method Connect(pIndex1: nat, pIndex2: nat, slope: real)
      requires Valid() && pIndex1 != pIndex2 && pIndex1 < |points| && pIndex2 < |points|
      modifies this
      ensures Valid() && added == old(added) && |points| == old(|points|)
      ensures lines == old(lines) + [Line2D(pIndex1, pIndex2, slope)] && diagnostics == old(diagnostics)
      ensures forall p :: 0 <= p < |points| ==>
        points[p] == if p == pIndex1 || p == pIndex2 then old(points[p]).AddLineIndex(old(|lines|)) else old(points[p])
    {
      var newIndex := |lines|;
      ghost var oldPoints := points;
      lines := lines + [Line2D(pIndex1, pIndex2, slope)];
      points := points[pIndex1 := points[pIndex1].AddLineIndex(newIndex)];
      points := points[pIndex2 := points[pIndex2].AddLineIndex(newIndex)];
      forall p, k | 0 <= p < |points| && 0 <= k < |points[p].lineIndices|
        ensures points[p].lineIndices[k] < |lines|
        ensures lines[points[p].lineIndices[k]].nodeAid == p || lines[points[p].lineIndices[k]].nodeBid == p
      {
        if k < |oldPoints[p].lineIndices| {
          assert points[p].lineIndices[k] == oldPoints[p].lineIndices[k];
        }
      }
    }

    /** getPoint: the point passed to the index-th addPoint. */
    function GetPoint(index: nat): (r: Point2D)
      requires Valid() && index < |points|
      reads this
      ensures r == added[index]
    {
      points[index].GetPoint()
    }
  }
}

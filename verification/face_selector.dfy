/** The face selector of `grapheditor.py`: a left drag adds a circle (stored as
    its bounding rectangle) and a right click removes every circle under the
    mouse. */
module FaceSelector {
  import opened Geometry
  import opened Common
  import opened Utils

  /** `CircleNode`: a circle drawn as the ellipse inside `rect`. */
  datatype CircleNode = CircleNode(rect: Rect)

  /** The circles of `cs` that do not contain `pos`, in their original order. */
  function Remaining(cs: seq<CircleNode>, pos: Point): seq<CircleNode>
    decreases |cs|
  {
    if |cs| == 0 then []
    else (if Contains(cs[0].rect, pos) then [] else [cs[0]]) + Remaining(cs[1..], pos)
  }

  /** A circle remains exactly when it was there and does not contain `pos`. */
  lemma {:induction false} RemainingMembers(cs: seq<CircleNode>, pos: Point)
    ensures forall c :: c in Remaining(cs, pos) <==> c in cs && !Contains(c.rect, pos)
    decreases |cs|
  {
    if |cs| > 0 {
      RemainingMembers(cs[1..], pos);
      assert forall c :: c in cs <==> c == cs[0] || c in cs[1..];
    }
  }

  /** Removal distributes over concatenation, so the circles that remain keep
      their order; it never adds circles and changes nothing when no circle
      contains `pos`. */
  lemma {:induction false} RemainingSplits(a: seq<CircleNode>, b: seq<CircleNode>, pos: Point)
    ensures Remaining(a + b, pos) == Remaining(a, pos) + Remaining(b, pos)
    decreases |a|
  {
    if |a| > 0 {
      assert (a + b)[1..] == a[1..] + b;
      RemainingSplits(a[1..], b, pos);
    } else {
      assert a + b == b;
    }
  }

  lemma {:induction false} RemainingBounds(cs: seq<CircleNode>, pos: Point)
    ensures |Remaining(cs, pos)| <= |cs|
    ensures (forall k :: 0 <= k < |cs| ==> !Contains(cs[k].rect, pos)) ==> Remaining(cs, pos) == cs
    decreases |cs|
  {
    if |cs| > 0 {
      RemainingBounds(cs[1..], pos);
      if forall k :: 0 <= k < |cs| ==> !Contains(cs[k].rect, pos) {
        assert forall k :: 0 <= k < |cs[1..]| ==> !Contains(cs[1..][k].rect, pos) by {
          forall k | 0 <= k < |cs[1..]| ensures !Contains(cs[1..][k].rect, pos) {
            assert cs[1..][k] == cs[k + 1];
          }
        }
        assert cs == [cs[0]] + cs[1..];
      }
    }
  }

  /** A circle with no width or no height contains no point, so no right click
      ever removes it; a straight drag of 10 px or more adds such a circle. */
  lemma FlatCircleStays(cs: seq<CircleNode>, c: CircleNode, pos: Point)
    requires c in cs && !c.rect.Truthy()
    ensures c in Remaining(cs, pos)
  {
    EmptyRectContainsNothing(c.rect, pos);
    RemainingMembers(cs, pos);
  }

  class FaceSelector {
    var circles: seq<CircleNode>
    /** None until the first left press. */
    var currStart: Option<Point>

    constructor ()
      ensures circles == [] && currStart == None
    {
      circles := [];
      currStart := None;
    }

    /** `start_circle`: a left press starts a drag at `pos`. */
    method StartCircle(pos: Point)
      modifies this`currStart
      ensures currStart == Some(pos)
    {
      currStart := Some(pos);
    }

    /** `add_circle`: before any press `Vector2(None)` raises `ValueError`;
        otherwise a drag of at least 10 px appends exactly one circle spanning it
        and a shorter one leaves the list as it was. */
    method AddCircle(pos: Point) returns (r: Outcome)
      modifies this`circles
      ensures currStart.None? <==> r.Fail?
      ensures r.Fail? ==> r.error == ValueError(VectorOfNone) && circles == old(circles)
      ensures r.Pass? && FarEnough(currStart.value, pos) ==>
        circles == old(circles) + [CircleNode(CreateRect(currStart.value, pos))]
      ensures r.Pass? && !FarEnough(currStart.value, pos) ==> circles == old(circles)
    {
      if currStart.None? {
        return Fail(ValueError(VectorOfNone));
      }
      if FarEnough(currStart.value, pos) {
        circles := circles + [CircleNode(CreateRect(currStart.value, pos))];
      }
      r := Pass;
    }

    /** `remove_circle`: walks the list from the back and pops every circle whose
        rectangle contains `pos`; the others stay, in their order. */
    method RemoveCircle(pos: Point)
      modifies this`circles
      ensures circles == Remaining(old(circles), pos)
    {
      ghost var cs := circles;
      var i := |circles| - 1;
      while i >= 0
        invariant -1 <= i < |cs|
        invariant circles == cs[..i + 1] + Remaining(cs[i + 1..], pos)
        decreases i
      {
        var c := circles[i];
        assert c == cs[i];
        assert cs[i..][1..] == cs[i + 1..];
        if Contains(c.rect, pos) {
          circles := circles[..i] + circles[i + 1..];
          assert circles == cs[..i] + Remaining(cs[i + 1..], pos);
        } else {
          assert cs[..i + 1] == cs[..i] + [cs[i]];
        }
        i := i - 1;
      }
      assert cs[0..] == cs;
    }
  }
}

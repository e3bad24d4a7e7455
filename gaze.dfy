/**
 * The per-frame eye bookkeeping that combined.py and eyes.py share: the Haar
 * detector's output for one frame (faces, each with the eye boxes found inside
 * it), the integer eye centre, and the sliding window of the last 30 centres.
 */
module Gaze {

  /** An eye box, relative to the top-left corner of its face. */
  datatype Eye = Eye(ex: int, ey: int, ew: int, eh: int)

  /** A face box in frame coordinates and the eyes detected inside it. */
  datatype Face = Face(x: int, y: int, w: int, h: int, eyes: seq<Eye>)

  datatype Point = Point(x: int, y: int)

  /** One processed frame: what the detectors found, and `time.time()` read after it. */
  datatype Shot = Shot(faces: seq<Face>, now: real)

  /** `max_positions`. */
  const MaxPositions: nat := 30

  /**
   * The eye centre `(x + ex + ew // 2, y + ey + eh // 2)`. Dafny's `/` by a
   * positive divisor rounds down, as Python's `//` does, for every sign.
   */
  function EyeCentre(f: Face, e: Eye): (c: Point)
    ensures e.ew - 1 <= 2 * (c.x - f.x - e.ex) <= e.ew
    ensures e.eh - 1 <= 2 * (c.y - f.y - e.ey) <= e.eh
    ensures e.ew >= 0 && e.eh >= 0 ==>
      f.x + e.ex <= c.x <= f.x + e.ex + e.ew && f.y + e.ey <= c.y <= f.y + e.ey + e.eh
  {
    Point(f.x + e.ex + e.ew / 2, f.y + e.ey + e.eh / 2)
  }

  /** The centres of one face's eyes, in detection order. */
  function FaceCentres(f: Face): (cs: seq<Point>)
    ensures |cs| == |f.eyes|
    ensures forall j :: 0 <= j < |f.eyes| ==> cs[j] == EyeCentre(f, f.eyes[j])
  {
    seq(|f.eyes|, j requires 0 <= j < |f.eyes| => EyeCentre(f, f.eyes[j]))
  }

  /** The centres of all eyes of a frame, face by face. */
  function Centres(faces: seq<Face>): seq<Point>
  {
    if faces == [] then [] else Centres(faces[..|faces| - 1]) + FaceCentres(faces[|faces| - 1])
  }

  /** Every eye centre of a run of frames, in the order they were appended. */
  function Trail(shots: seq<Shot>): seq<Point>
  {
    if shots == [] then [] else Trail(shots[..|shots| - 1]) + Centres(shots[|shots| - 1].faces)
  }

  /** `eyes_detected`: some face has at least one eye. */
  predicate AnyEyes(faces: seq<Face>) {
    exists i :: 0 <= i < |faces| && faces[i].eyes != []
  }

  /** A frame yields eye centres exactly when some face in it has an eye. */
  lemma {:induction false} CentresEmpty(faces: seq<Face>)
    ensures Centres(faces) == [] <==> !AnyEyes(faces)
  {
    if faces != [] {
      var n := |faces| - 1;
      CentresEmpty(faces[..n]);
      assert AnyEyes(faces) <==> AnyEyes(faces[..n]) || faces[n].eyes != [] by {
        assert forall i :: 0 <= i < n ==> faces[..n][i] == faces[i];
        if AnyEyes(faces) && faces[n].eyes == [] {
          var i :| 0 <= i < |faces| && faces[i].eyes != [];
          assert faces[..n][i].eyes != [];
        }
      }
    }
  }

  /** A run of frames yields eye centres exactly when some frame has eyes. */
  lemma {:induction false} TrailEmpty(shots: seq<Shot>)
    ensures Trail(shots) == [] <==> forall i :: 0 <= i < |shots| ==> !AnyEyes(shots[i].faces)
  {
    if shots != [] {
      var n := |shots| - 1;
      TrailEmpty(shots[..n]);
      CentresEmpty(shots[n].faces);
      assert forall i :: 0 <= i < n ==> shots[..n][i] == shots[i];
    }
  }

  /** The most recent `MaxPositions` entries of `s`, oldest first. */
  function Window(s: seq<Point>): (w: seq<Point>)
    ensures |w| == if |s| <= MaxPositions then |s| else MaxPositions
    ensures w == s[|s| - |w|..]
  {
    if |s| <= MaxPositions then s else s[|s| - MaxPositions..]
  }

  /** Windowing early loses nothing that windowing at the end would keep. */
  lemma WindowAppend(a: seq<Point>, b: seq<Point>)
    ensures Window(Window(a) + b) == Window(a + b)
  {
    if |a| <= MaxPositions {
      assert Window(a) == a;
    } else {
      assert a == a[..|a| - MaxPositions] + Window(a);
      assert a + b == a[..|a| - MaxPositions] + (Window(a) + b);
      WindowSuffix(a[..|a| - MaxPositions], Window(a) + b);
    }
  }

  /** What lies before the last `MaxPositions` entries does not matter to the window. */
  lemma WindowSuffix(p: seq<Point>, r: seq<Point>)
    requires |r| >= MaxPositions
    ensures Window(p + r) == Window(r)
  {
    assert (p + r)[|p|..] == r;
    assert (p + r)[|p + r| - MaxPositions..] == (p + r)[|p|..][|r| - MaxPositions..];
  }

  /** `positions.append(c)` followed by `positions.pop(0)` when the list got too long. */
  function Push(w: seq<Point>, c: Point): (r: seq<Point>)
    ensures |w| <= MaxPositions ==> r == Window(w + [c])
  {
    if |w + [c]| > MaxPositions then (w + [c])[1..] else w + [c]
  }

  /** Pushing onto the window of `s` gives the window of `s + [c]`. */
  lemma PushKeepsWindow(w: seq<Point>, s: seq<Point>, c: Point)
    requires w == Window(s)
    ensures Push(w, c) == Window(s + [c])
  {
    WindowAppend(s, [c]);
  }

  /** Pushing the next element of `cs` extends the windowed prefix by one. */
  lemma PushStep(positions: seq<Point>, cs: seq<Point>, j: nat, w: seq<Point>)
    requires j < |cs|
    requires w == Window(positions + cs[..j])
    ensures Push(w, cs[j]) == Window(positions + cs[..j + 1])
  {
    PushKeepsWindow(w, positions + cs[..j], cs[j]);
    assert positions + cs[..j] + [cs[j]] == positions + cs[..j + 1];
  }

  /** `positions.append(c)`, then `positions.pop(0)` when the list holds more than 30. */
  method PushPosition(positions: seq<Point>, c: Point) returns (positions': seq<Point>)
    ensures positions' == Push(positions, c)
  {
    positions' := positions + [c];
    if |positions'| > MaxPositions {
      positions' := positions'[1..];
    }
  }

  /** The eye loop of one face: append each centre, dropping the oldest past 30. */
  method RecordFace(face: Face, positions: seq<Point>) returns (positions': seq<Point>)
    requires |positions| <= MaxPositions
    ensures positions' == Window(positions + FaceCentres(face))
  {
    positions' := positions;
    assert positions + FaceCentres(face)[..0] == positions;
    for j := 0 to |face.eyes|
      invariant positions' == Window(positions + FaceCentres(face)[..j])
    {
      var c := EyeCentre(face, face.eyes[j]);
      PushStep(positions, FaceCentres(face), j, positions');
      positions' := PushPosition(positions', c);
    }
    assert FaceCentres(face)[..|face.eyes|] == FaceCentres(face);
  }

  /**
   * The face loop of one frame: every eye's centre is appended to the
   * position list, trimmed to the last 30; `detected` is `eyes_detected`.
   */
  method RecordEyes(faces: seq<Face>, positions: seq<Point>) returns (positions': seq<Point>, detected: bool)
    requires |positions| <= MaxPositions
    ensures positions' == Window(positions + Centres(faces))
    ensures detected == AnyEyes(faces)
  {
    positions', detected := positions, false;
    for i := 0 to |faces|
      invariant positions' == Window(positions + Centres(faces[..i]))
      invariant detected == AnyEyes(faces[..i])
    {
      var face := faces[i];
      if |face.eyes| > 0 {
        detected := true;
      }
      WindowStep(positions, faces, i, positions');
      positions' := RecordFace(face, positions');
      AnyEyesSnoc(faces, i);
    }
    assert faces[..|faces|] == faces;
  }

  /** Windowing the positions after each face is windowing the centres of all faces so far. */
  lemma WindowStep(positions: seq<Point>, faces: seq<Face>, i: nat, w: seq<Point>)
    requires i < |faces|
    requires w == Window(positions + Centres(faces[..i]))
    ensures Window(w + FaceCentres(faces[i])) == Window(positions + Centres(faces[..i + 1]))
  {
    WindowAssoc(positions, Centres(faces[..i]), FaceCentres(faces[i]));
    CentresSnoc(faces, i);
  }

  lemma WindowAssoc(p: seq<Point>, xs: seq<Point>, ys: seq<Point>)
    ensures Window(Window(p + xs) + ys) == Window(p + (xs + ys))
  {
    WindowAppend(p + xs, ys);
    assert p + xs + ys == p + (xs + ys);
  }

  lemma CentresSnoc(faces: seq<Face>, i: nat)
    requires i < |faces|
    ensures Centres(faces[..i]) + FaceCentres(faces[i]) == Centres(faces[..i + 1])
  {
    assert faces[..i + 1][..i] == faces[..i];
  }

  lemma AnyEyesSnoc(faces: seq<Face>, i: nat)
    requires i < |faces|
    ensures AnyEyes(faces[..i + 1]) == (AnyEyes(faces[..i]) || faces[i].eyes != [])
  {
    var pre, cur := faces[..i], faces[..i + 1];
    if AnyEyes(pre) {
      var k :| 0 <= k < |pre| && pre[k].eyes != [];
      assert cur[k] == pre[k];
    }
    if faces[i].eyes != [] {
      assert cur[i] == faces[i];
    }
    if AnyEyes(cur) {
      var k :| 0 <= k < |cur| && cur[k].eyes != [];
      if k < i {
        assert pre[k] == cur[k];
      }
    }
  }
}

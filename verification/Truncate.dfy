/** Truncation to a number of code points (truncate in mapper/template-mapper.ts). */
module Truncate {
  import opened CodeUnits

  function TrimEnd(t: Text): (r: Text)
    ensures r <= t
    ensures r != [] ==> !IsWhiteSpace(r[|r| - 1])
    ensures forall i :: |r| <= i < |t| ==> IsWhiteSpace(t[i])
  {
    if t != [] && IsWhiteSpace(t[|t| - 1]) then TrimEnd(t[..|t| - 1]) else t
  }

  function Truncate(t: Text, max: nat, suffix: Text): Text {
    if |t| <= max then t
    else
      var chars := Points(t);
      if |chars| <= max then t
      else
        var suffixLen := |Points(suffix)|;
        if max <= suffixLen then Join(chars[..max])
        else TrimEnd(Join(chars[..max - suffixLen])) + suffix
  }

  /** How many units of `t` are kept when something is cut off. */
  function Kept(t: Text, max: nat, suffix: Text): (k: nat)
    requires |Points(t)| > max
    ensures k <= |t|
  {
    var suffixLen := |Points(suffix)|;
    SplitPoints(t, if max <= suffixLen then max else max - suffixLen);
    if max <= suffixLen then |Join(Points(t)[..max])| else |TrimEnd(Join(Points(t)[..max - suffixLen]))|
  }

  /** At most `max` code points come out, suffix included. */
  lemma TruncateFits(t: Text, max: nat, suffix: Text)
    ensures |Points(Truncate(t, max, suffix))| <= max
  {
    hide Points, Join, TrimEnd;
    AtMostOnePointPerUnit(t);
    if |Points(t)| > max {
      var suffixLen := |Points(suffix)|;
      if max <= suffixLen {
        SplitPoints(t, max);
      } else {
        var head := Join(Points(t)[..max - suffixLen]);
        SplitPoints(t, max - suffixLen);
        var trimmed := TrimEnd(head);
        PointsOfConcat(trimmed, head[|trimmed|..]);
        assert trimmed + head[|trimmed|..] == head;
        PointsOfConcat(trimmed, suffix);
      }
    }
  }

  /**
   * A text that fits is unchanged. Any other is cut between code points, never inside a surrogate pair; with room for
   * the suffix, white space before the cut goes and the suffix follows.
   */
  lemma TruncateCuts(t: Text, max: nat, suffix: Text)
    ensures |Points(t)| <= max ==> Truncate(t, max, suffix) == t
    ensures |Points(t)| > max ==>
              && Truncate(t, max, suffix) != t
              && Boundary(t, Kept(t, max, suffix))
              && Truncate(t, max, suffix) ==
                 t[..Kept(t, max, suffix)] + if max <= |Points(suffix)| then [] else suffix
  {
    AtMostOnePointPerUnit(t);
    TruncateFits(t, max, suffix);
    if |Points(t)| > max {
      var suffixLen := |Points(suffix)|;
      var n := if max <= suffixLen then max else max - suffixLen;
      var head := Join(Points(t)[..n]);
      SplitPoints(t, n);
      if max > suffixLen {
        var trimmed := TrimEnd(head);
        assert trimmed == t[..|trimmed|];
        if |trimmed| < |head| {
          assert IsWhiteSpace(head[|trimmed|]);
        }
      }
    }
  }

  /** The prefix `head` of `t` is white space from `k` on. */
  ghost predicate TrimmedTo(t: Text, head: Text, k: nat) {
    k <= |head| && head <= t && forall i :: k <= i < |head| ==> IsWhiteSpace(head[i])
  }

  /** What is kept is as long as it can be: exactly the code points that fit, less the white space at their end. */
  lemma TruncateKeepsWhatFits(t: Text, max: nat, suffix: Text)
    requires |Points(t)| > max
    ensures
      var k, suffixLen := Kept(t, max, suffix), |Points(suffix)|;
      if max <= suffixLen then Points(t[..k]) == Points(t)[..max]
      else exists head :: TrimmedTo(t, head, k) && Points(head) == Points(t)[..max - suffixLen]
  {
    hide Points, Join, TrimEnd;
    var suffixLen := |Points(suffix)|;
    var n := if max <= suffixLen then max else max - suffixLen;
    SplitPoints(t, n);
    var head := Join(Points(t)[..n]);
    if max > suffixLen {
      assert TrimmedTo(t, head, Kept(t, max, suffix));
    }
  }

  lemma TruncateIsIdempotent(t: Text, max: nat, suffix: Text)
    ensures Truncate(Truncate(t, max, suffix), max, suffix) == Truncate(t, max, suffix)
  {
    TruncateFits(t, max, suffix);
    TruncateCuts(Truncate(t, max, suffix), max, suffix);
  }
}

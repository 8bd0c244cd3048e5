/** JavaScript strings: sequences of UTF-16 code units (section 3.9 of the Unicode Standard). */
module CodeUnits {
  type Unit = u: int | 0 <= u < 0x1_0000 witness 0

  type Text = seq<Unit>

  /** What trim removes: white space and line terminators of ECMAScript. */
  predicate IsWhiteSpace(code: int) {
    0x9 <= code <= 0xD || code == 0x20 || code == 0xA0 || code == 0x1680 || 0x2000 <= code <= 0x200A ||
    code == 0x2028 || code == 0x2029 || code == 0x202F || code == 0x205F || code == 0x3000 || code == 0xFEFF
  }

  predicate IsHigh(u: Unit) {
    0xD800 <= u < 0xDC00
  }

  predicate IsLow(u: Unit) {
    0xDC00 <= u < 0xE000
  }

  /** Array.from: surrogate pairs stay together, anything else stands alone. */
  function Points(t: Text): seq<Text> {
    if t == [] then []
    else if |t| > 1 && IsHigh(t[0]) && IsLow(t[1]) then [t[..2]] + Points(t[2..])
    else [t[..1]] + Points(t[1..])
  }

  /** join('') */
  function Join(points: seq<Text>): Text {
    if points == [] then [] else points[0] + Join(points[1..])
  }

  /** The first `n` code points and the rest. */
  lemma {:induction false} SplitPoints(t: Text, n: nat)
    requires n <= |Points(t)|
    ensures
      var head := Join(Points(t)[..n]);
      && |head| <= |t| && head == t[..|head|]
      && Points(head) == Points(t)[..n]
      && Boundary(t, |head|)
  {
    var ps := Points(t);
    if n > 0 {
      var k := |ps[0]|;
      assert ps[1..] == Points(t[k..]);
      assert ps[..n][1..] == ps[1..][..n - 1];
      SplitPoints(t[k..], n - 1);
      var tail := Join(ps[1..][..n - 1]);
      var head := Join(ps[..n]);
      assert head == t[..k] + tail;
      assert t == t[..k] + t[k..];
      if k == 1 && tail != [] {
        assert head[1] == t[1];
      }
      assert head[k..] == tail;
    }
  }

  /** Cutting `t` at `k` does not split a surrogate pair. */
  predicate Boundary(t: Text, k: nat)
    requires k <= |t|
  {
    0 < k < |t| ==> !(IsHigh(t[k - 1]) && IsLow(t[k]))
  }

  lemma {:induction false} AtMostOnePointPerUnit(t: Text)
    ensures |Points(t)| <= |t|
  {
    if t != [] {
      if |t| > 1 && IsHigh(t[0]) && IsLow(t[1]) {
        AtMostOnePointPerUnit(t[2..]);
      } else {
        AtMostOnePointPerUnit(t[1..]);
      }
    }
  }

  /** Joining two texts never makes code points, though it may pair two halves. */
  lemma {:induction false} PointsOfConcat(a: Text, b: Text)
    ensures |Points(a + b)| <= |Points(a)| + |Points(b)|
    ensures |Points(a)| <= |Points(a + b)|
  {
    if a == [] {
      assert a + b == b;
    } else if |a| > 1 && IsHigh(a[0]) && IsLow(a[1]) {
      PointsOfConcat(a[2..], b);
      assert (a + b)[2..] == a[2..] + b;
    } else if |a| == 1 && b != [] && IsHigh(a[0]) && IsLow(b[0]) {
      assert (a + b)[2..] == b[1..];
    } else {
      PointsOfConcat(a[1..], b);
      assert (a + b)[1..] == a[1..] + b;
    }
  }
}

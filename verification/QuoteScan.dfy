/**
 * The quote rule that the three scanners of the template parser share: findClose, splitTopLevel and unquote
 * in mapper/template-mapper.ts.
 */
module QuoteScan {
  import opened Collections

  datatype SyntaxError =
    | TooLong | Unclosed | EmptyExpression
    | InvalidPath | UnknownRoot | UnterminatedString | InvalidIndex | MissingBracket | UnexpectedCharacter | TooDeep
    | ForbiddenSegment
    | UnknownFilter | EmptyArgument | InvalidArgument | InvalidString | ArgumentCount | InvalidTruncate

  /** Where a scanner stands: outside quotes, inside them, or just after a backslash inside them. */
  datatype Place = Outside | Inside(q: char) | Escaped(q: char)

  predicate IsQuote(c: char) {
    c == '"' || c == '\''
  }

  function Next(at: Place, c: char): Place {
    match at
    case Outside => if IsQuote(c) then Inside(c) else Outside
    case Inside(q) => if c == '\\' then Escaped(q) else if c == q then Outside else at
    case Escaped(q) => Inside(q)
  }

  predicate Starts(s: string, prefix: string) {
    prefix <= s
  }

  /** The text up to the first `}}` outside quotes, and what follows it; `seen` has been passed already. */
  function Close(s: string, at: Place, seen: string): Option<(string, string)>
    decreases |s|
  {
    if s == [] then None
    else if at == Outside && Starts(s, "}}") then Some((seen, s[2..]))
    else Close(s[1..], Next(at, s[0]), seen + [s[0]])
  }

  /** The pieces between separators outside quotes; `piece` is the beginning of the first. */
  function SplitOn(s: string, separator: char, at: Place, piece: string): (r: seq<string>)
    ensures r != []
    decreases |s|
  {
    if s == [] then [piece]
    else if at == Outside && s[0] == separator then [piece] + SplitOn(s[1..], separator, Outside, [])
    else SplitOn(s[1..], separator, Next(at, s[0]), piece + [s[0]])
  }

  function Split(s: string, separator: char): (r: seq<string>)
    ensures r != []
  {
    SplitOn(s, separator, Outside, [])
  }

  // ---- the loops ----

  function PlaceOf(quote: Option<char>): Place {
    if quote == None then Outside else Inside(quote.value)
  }

  /** What the search from `from` finds once it has come to `i`. */
  function CloseFrom(source: string, from: nat, i: nat, at: Place): Option<(string, string)>
    requires from <= i <= |source|
  {
    Close(source[i..], at, source[from..i])
  }

  lemma CloseStep(source: string, from: nat, i: nat, at: Place)
    requires from <= i < |source|
    ensures
      CloseFrom(source, from, i, at) ==
      if at == Outside && i + 1 < |source| && source[i] == '}' && source[i + 1] == '}' then
        Some((source[from..i], source[i + 2..]))
      else CloseFrom(source, from, i + 1, Next(at, source[i]))
  {
    var s := source[i..];
    assert s[1..] == source[i + 1..] && source[from..i] + [s[0]] == source[from..i + 1];
    if i + 1 < |source| {
      assert s[2..] == source[i + 2..] && (Starts(s, "}}") <==> s[0] == '}' && s[1] == '}');
    }
  }

  lemma CloseEnd(source: string, from: nat, at: Place)
    requires from <= |source|
    ensures CloseFrom(source, from, |source|, at) == None
    ensures CloseFrom(source, from, from, at) == Close(source[from..], at, [])
  {
    assert source[from..from] == [];
  }

  method FindClose(source: string, from: nat) returns (r: int)
    requires from <= |source|
    ensures
      match Close(source[from..], Outside, [])
      case None => r == -1
      case Some(c) => from <= r && r + 2 <= |source| && c == (source[from..r], source[r + 2..])
  {
    var quote: Option<char> := None;
    var i := from;
    CloseEnd(source, from, Outside);
    hide CloseFrom, Close;
    while i < |source|
      invariant from <= i <= |source| + 1
      invariant i <= |source| ==> CloseFrom(source, from, i, PlaceOf(quote)) == CloseFrom(source, from, from, Outside)
      invariant i > |source| ==> CloseFrom(source, from, from, Outside) == None
    {
      var c := source[i];
      CloseStep(source, from, i, PlaceOf(quote));
      if quote.Some? {
        if c == '\\' {
          i := i + 1;
          if i < |source| {
            CloseStep(source, from, i, Escaped(quote.value));
          } else {
            CloseEnd(source, from, Escaped(quote.value));
          }
        } else if c == quote.value {
          quote := None;
        }
      } else if IsQuote(c) {
        quote := Some(c);
      } else if c == '}' && i + 1 < |source| && source[i + 1] == '}' {
        return i;
      }
      i := i + 1;
    }
    if i == |source| {
      CloseEnd(source, from, PlaceOf(quote));
    }
    return -1;
  }

  /** The pieces that come out once the splitter has come to `i`, with the current piece begun at `start`. */
  function SplitFrom(out: seq<string>, input: string, separator: char, start: nat, i: nat, at: Place): seq<string>
    requires start <= i <= |input|
  {
    out + SplitOn(input[i..], separator, at, input[start..i])
  }

  lemma SplitStep(out: seq<string>, input: string, separator: char, start: nat, i: nat, at: Place)
    requires start <= i < |input|
    ensures
      SplitFrom(out, input, separator, start, i, at) ==
      if at == Outside && input[i] == separator
      then SplitFrom(out + [input[start..i]], input, separator, i + 1, i + 1, Outside)
      else SplitFrom(out, input, separator, start, i + 1, Next(at, input[i]))
  {
    var s := input[i..];
    assert s[1..] == input[i + 1..] && input[start..i] + [s[0]] == input[start..i + 1] && input[i + 1..i + 1] == [];
    assert out + [input[start..i]] + SplitOn(s[1..], separator, Outside, []) ==
           out + ([input[start..i]] + SplitOn(s[1..], separator, Outside, []));
  }

  lemma SplitEnds(out: seq<string>, input: string, separator: char, start: nat, at: Place)
    requires start <= |input|
    ensures SplitFrom(out, input, separator, start, |input|, at) == out + [input[start..]]
    ensures SplitFrom([], input, separator, 0, 0, Outside) == Split(input, separator)
  {
    assert input[start..|input|] == input[start..] && input[0..0] == [] && input[0..] == input;
  }

  method SplitTopLevel(input: string, separator: char) returns (out: seq<string>)
    requires !IsQuote(separator) && separator != '\\'
    ensures out == Split(input, separator)
  {
    out := [];
    var quote: Option<char> := None;
    var start, i := 0, 0;
    SplitEnds([], input, separator, 0, Outside);
    hide SplitFrom, Split, SplitOn;
    while i < |input|
      invariant 0 <= start <= |input| && start <= i <= |input| + 1
      invariant i <= |input| ==> SplitFrom(out, input, separator, start, i, PlaceOf(quote)) == Split(input, separator)
      invariant i > |input| ==> out + [input[start..]] == Split(input, separator)
    {
      var c := input[i];
      SplitStep(out, input, separator, start, i, PlaceOf(quote));
      if quote.Some? {
        if c == '\\' {
          i := i + 1;
          if i < |input| {
            SplitStep(out, input, separator, start, i, Escaped(quote.value));
          } else {
            SplitEnds(out, input, separator, start, Escaped(quote.value));
          }
        } else if c == quote.value {
          quote := None;
        }
      } else if IsQuote(c) {
        quote := Some(c);
      } else if c == separator {
        out := out + [input[start..i]];
        start := i + 1;
      }
      i := i + 1;
    }
    if i == |input| {
      SplitEnds(out, input, separator, start, PlaceOf(quote));
    }
    out := out + [input[start..]];
  }

  // ---- string literals ----

  function Unescape(c: char): char {
    if c == 'n' then '\n' else if c == 't' then '\t' else c
  }

  /** The value of a literal from some place after its opening quote on; the last character closes it. */
  function Body(s: string): string
    decreases |s|
  {
    if |s| <= 1 then []
    else if s[0] == '\\' then [Unescape(s[1])] + Body(s[2..])
    else [s[0]] + Body(s[1..])
  }

  predicate IsLiteral(raw: string) {
    |raw| >= 2 && IsQuote(raw[0]) && raw[|raw| - 1] == raw[0]
  }

  function UnquoteSpec(raw: string): Result<string, SyntaxError> {
    if IsLiteral(raw) then Ok(Body(raw[1..])) else Err(InvalidString)
  }

  method Unquote(raw: string) returns (r: Result<string, SyntaxError>)
    requires raw != []
    ensures r == UnquoteSpec(raw)
  {
    var quote := raw[0];
    if !IsQuote(quote) || raw[|raw| - 1] != quote || |raw| < 2 {
      return Err(InvalidString);
    }
    var out := "";
    var i := 1;
    while i < |raw| - 1
      invariant 1 <= i <= |raw|
      invariant out + Body(raw[i..]) == Body(raw[1..])
    {
      var c := raw[i];
      if c == '\\' {
        assert raw[i..][2..] == raw[i + 2..];
        assert out + ([Unescape(raw[i + 1])] + Body(raw[i + 2..])) == out + [Unescape(raw[i + 1])] + Body(raw[i + 2..]);
        i := i + 1;
        out := out + [Unescape(raw[i])];
      } else {
        assert raw[i..][1..] == raw[i + 1..];
        assert out + ([c] + Body(raw[i + 1..])) == out + [c] + Body(raw[i + 1..]);
        out := out + [c];
      }
      i := i + 1;
    }
    assert out + [] == out;
    return Ok(out);
  }

  // ---- text a scanner passes over ----

  /** Scanning `t` from `at` meets no `bad` outside quotes and ends outside. */
  predicate Calm(t: string, at: Place, bad: char) {
    if t == [] then at == Outside
    else !(at == Outside && t[0] == bad) && Calm(t[1..], Next(at, t[0]), bad)
  }

  lemma {:induction false} CalmConcat(a: string, b: string, at: Place, bad: char)
    requires Calm(a, at, bad) && Calm(b, Outside, bad)
    ensures Calm(a + b, at, bad)
  {
    if a == [] {
      assert a + b == b;
    } else {
      CalmConcat(a[1..], b, Next(at, a[0]), bad);
      assert (a + b)[1..] == a[1..] + b;
    }
  }

  lemma {:induction false} PlainIsCalm(t: string, bad: char)
    requires forall i :: 0 <= i < |t| ==> !IsQuote(t[i]) && t[i] != bad
    ensures Calm(t, Outside, bad)
  {
    if t != [] {
      PlainIsCalm(t[1..], bad);
    }
  }

  /** A calm text is passed whole before the closing braces. */
  lemma {:induction false} CloseAfter(t: string, rest: string, at: Place, seen: string)
    requires Calm(t, at, '}')
    ensures Close(t + "}}" + rest, at, seen) == Some((seen + t, rest))
    decreases |t|
  {
    var s := t + "}}" + rest;
    if t == [] {
      assert s[2..] == rest && Starts(s, "}}") && seen + t == seen;
    } else {
      CloseAfter(t[1..], rest, Next(at, t[0]), seen + [t[0]]);
      assert s[1..] == t[1..] + "}}" + rest;
      assert seen + [t[0]] + t[1..] == seen + t;
      assert at == Outside ==> !Starts(s, "}}") by {
        assert s[0] == t[0];
      }
    }
  }

  /** And before a separator, or the end. */
  lemma {:induction false} SplitAfter(t: string, rest: string, separator: char, at: Place, piece: string)
    requires Calm(t, at, separator)
    ensures SplitOn(t + [separator] + rest, separator, at, piece) == [piece + t] + Split(rest, separator)
    ensures SplitOn(t, separator, at, piece) == [piece + t]
    decreases |t|
  {
    var s := t + [separator] + rest;
    if t == [] {
      assert s[1..] == rest && piece + t == piece;
    } else {
      SplitAfter(t[1..], rest, separator, Next(at, t[0]), piece + [t[0]]);
      assert s[1..] == t[1..] + [separator] + rest;
      assert piece + [t[0]] + t[1..] == piece + t;
    }
  }

  lemma SplitPiece(t: string, rest: string, separator: char)
    requires Calm(t, Outside, separator)
    ensures Split(t + [separator] + rest, separator) == [t] + Split(rest, separator) && Split(t, separator) == [t]
  {
    SplitAfter(t, rest, separator, Outside, []);
    assert [] + t == t;
  }

  /** One character of a literal as written. */
  datatype Written = Plain(c: char) | Backslash(c: char)

  function Value(w: Written): char {
    if w.Plain? then w.c else Unescape(w.c)
  }

  function Values(ws: seq<Written>): (r: string)
    ensures |r| == |ws| && forall i :: 0 <= i < |r| ==> r[i] == Value(ws[i])
  {
    seq(|ws|, i requires 0 <= i < |ws| => Value(ws[i]))
  }

  function Inner(ws: seq<Written>): string {
    if ws == [] then [] else (if ws[0].Plain? then [ws[0].c] else ['\\', ws[0].c]) + Inner(ws[1..])
  }

  function Literal(q: char, ws: seq<Written>): string {
    [q] + Inner(ws) + [q]
  }

  ghost predicate WellWritten(q: char, ws: seq<Written>) {
    IsQuote(q) && forall i :: 0 <= i < |ws| && ws[i].Plain? ==> ws[i].c != q && ws[i].c != '\\'
  }

  lemma {:induction false} BodyOfInner(q: char, ws: seq<Written>)
    requires WellWritten(q, ws)
    ensures Body(Inner(ws) + [q]) == Values(ws)
    decreases |ws|
  {
    if ws != [] {
      BodyOfInner(q, ws[1..]);
      var s, tail := Inner(ws) + [q], Inner(ws[1..]) + [q];
      assert Values(ws) == [Value(ws[0])] + Values(ws[1..]);
      if ws[0].Plain? {
        assert s[1..] == tail;
      } else {
        assert s[2..] == tail;
      }
    }
  }

  lemma {:induction false} InnerIsCalm(q: char, ws: seq<Written>, bad: char)
    requires WellWritten(q, ws)
    ensures Calm(Inner(ws) + [q], Inside(q), bad)
    decreases |ws|
  {
    if ws != [] {
      InnerIsCalm(q, ws[1..], bad);
      var s, tail := Inner(ws) + [q], Inner(ws[1..]) + [q];
      if ws[0].Plain? {
        assert s[1..] == tail;
      } else {
        assert s[1..][1..] == tail;
      }
    }
  }

  /** Every literal, whatever it quotes, is one calm text, and unquoting gives its value. */
  lemma LiteralIsCalm(q: char, ws: seq<Written>, bad: char)
    requires WellWritten(q, ws) && !IsQuote(bad)
    ensures Calm(Literal(q, ws), Outside, bad)
    ensures UnquoteSpec(Literal(q, ws)) == Ok(Values(ws))
  {
    var raw := Literal(q, ws);
    assert raw[1..] == Inner(ws) + [q];
    InnerIsCalm(q, ws, bad);
    BodyOfInner(q, ws);
  }

  /** A way to write any text. */
  function Write(q: char, text: string): (ws: seq<Written>)
    ensures |ws| == |text|
  {
    if text == [] then []
    else
      var c := text[0];
      var w :=
        if c == q || c == '\\' then Backslash(c)
        else if c == '\n' then Backslash('n')
        else if c == '\t' then Backslash('t')
        else Plain(c);
      [w] + Write(q, text[1..])
  }

  lemma {:induction false} WriteValues(q: char, text: string)
    requires IsQuote(q)
    ensures WellWritten(q, Write(q, text)) && Values(Write(q, text)) == text
    decreases |text|
  {
    if text != [] {
      WriteValues(q, text[1..]);
      var ws := Write(q, text);
      assert ws[1..] == Write(q, text[1..]);
      assert Values(ws) == [Value(ws[0])] + Values(ws[1..]);
      assert forall i :: 1 <= i < |ws| ==> ws[i] == ws[1..][i - 1];
    }
  }
}

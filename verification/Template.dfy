/** Whole templates: literal text and {{expressions}} (compileTemplate in mapper/template-mapper.ts). */
module Template {
  import opened Collections
  import opened QuoteScan
  import opened TemplatePath
  import opened TemplateExpression

  const MAX_TEMPLATE_LENGTH := 65_536

  datatype Part = Text(text: string) | Value(expression: Expression)

  predicate Opens(s: string) {
    Starts(s, "{{")
  }

  predicate Escapes(s: string) {
    Starts(s, "\\{{")
  }

  lemma OpensIff(s: string)
    ensures Opens(s) <==> |s| >= 2 && s[0] == '{' && s[1] == '{'
    ensures Escapes(s) <==> |s| >= 3 && s[0] == '\\' && s[1] == '{' && s[2] == '{'
  {
  }

  /** The literal gathered so far becomes a part, if there is any. */
  function Flushed(parts: seq<Part>, literal: string): seq<Part> {
    if literal == [] then parts else parts + [Text(literal)]
  }

  lemma {:induction false} CloseLeavesLess(s: string, at: Place, seen: string)
    ensures
      match Close(s, at, seen)
      case None => true
      case Some(c) => |c.1| + 2 <= |s| && c.1 == s[|s| - |c.1|..] && s[|s| - |c.1| - 1] == '}'
    decreases |s|
  {
    if s != [] && !(at == Outside && Starts(s, "}}")) {
      CloseLeavesLess(s[1..], Next(at, s[0]), seen + [s[0]]);
    }
  }

  /** The expression at the start of `s`, and what follows its closing braces. */
  function ExpressionAt(table: FilterTable, s: string): (r: Result<(Expression, string), SyntaxError>)
    requires Opens(s)
    ensures r.Ok? ==> |r.value.1| < |s|
  {
    match Close(s[2..], Outside, [])
    case None => Err(Unclosed)
    case Some(c) =>
      CloseLeavesLess(s[2..], Outside, []);
      match ExpressionOf(table, c.0)
      case Err(e) => Err(e)
      case Ok(x) => Ok((x, c.1))
  }

  function CompileFrom(table: FilterTable, s: string, literal: string, parts: seq<Part>): Result<seq<Part>, SyntaxError>
    decreases |s|
  {
    if s == [] then Ok(Flushed(parts, literal))
    else if Opens(s) then
      match ExpressionAt(table, s)
      case Err(e) => Err(e)
      case Ok(x) => CompileFrom(table, x.1, [], Flushed(parts, literal) + [Value(x.0)])
    else if Escapes(s) then CompileFrom(table, s[3..], literal + "{{", parts)
    else CompileFrom(table, s[1..], literal + [s[0]], parts)
  }

  /** What a source compiles to. */
  function Compile(table: FilterTable, source: string): Result<seq<Part>, SyntaxError> {
    if |source| > MAX_TEMPLATE_LENGTH then Err(TooLong) else CompileFrom(table, source, [], [])
  }

  datatype CompiledTemplate = CompiledTemplate(source: string, parts: seq<Part>, single: Option<Expression>)

  /** A template that is one expression and nothing else keeps the type of its value. */
  function Single(parts: seq<Part>): Option<Expression> {
    if |parts| == 1 && parts[0].Value? then Some(parts[0].expression) else None
  }

  lemma SingleIsLone(parts: seq<Part>, e: Expression)
    ensures Single(parts) == Some(e) <==> parts == [Value(e)]
  {
  }

  // ---- the loop ----

  /** source.indexOf('{{', i), or -1 */
  method IndexOfOpen(source: string, i: nat) returns (open: int)
    requires i <= |source|
    ensures open == -1 ==> forall k :: i <= k <= |source| ==> !Opens(source[k..])
    ensures open != -1 ==>
              && i <= open && open + 2 <= |source| && Opens(source[open..])
              && forall k :: i <= k < open ==> !Opens(source[k..])
  {
    open := i;
    while open < |source| && !Opens(source[open..])
      invariant i <= open <= |source|
      invariant forall k :: i <= k < open ==> !Opens(source[k..])
    {
      open := open + 1;
    }
    if open == |source| {
      return -1;
    }
  }

  /** A character that begins neither an opening nor an escaped one is literal. */
  lemma PlainStep(table: FilterTable, s: string, literal: string, parts: seq<Part>)
    requires s != [] && !Opens(s) && !Escapes(s)
    ensures CompileFrom(table, s, literal, parts) == CompileFrom(table, s[1..], literal + [s[0]], parts)
  {
  }

  lemma TextRun(s: string, n: nat, literal: string)
    requires 0 < n <= |s|
    ensures s[1..][n - 1..] == s[n..] && literal + [s[0]] + s[1..][..n - 1] == literal + s[..n]
    ensures forall k :: 0 <= k < n - 1 ==> s[1..][k..] == s[k + 1..]
  {
  }

  /** Between two openings the text is literal, as long as no backslash stands before an opening. */
  lemma {:induction false} LiteralRun(table: FilterTable, s: string, n: nat, literal: string, parts: seq<Part>)
    requires n <= |s| && forall k :: 0 <= k < n ==> !Opens(s[k..]) && !Escapes(s[k..])
    ensures CompileFrom(table, s, literal, parts) == CompileFrom(table, s[n..], literal + s[..n], parts)
    decreases n
  {
    hide CompileFrom, Opens, Escapes;
    assert s[0..] == s && literal + s[..0] == literal;
    if n > 0 {
      PlainStep(table, s, literal, parts);
      TextRun(s, n, literal);
      LiteralRun(table, s[1..], n - 1, literal + [s[0]], parts);
    }
  }

  lemma AfterClose(table: FilterTable, source: string, open: nat, close: nat)
    requires open + 2 <= close && close + 2 <= |source| && Opens(source[open..])
    requires Close(source[open + 2..], Outside, []) == Some((source[open + 2..close], source[close + 2..]))
    ensures source[close + 1] == '}'
    ensures
      ExpressionAt(table, source[open..]) ==
      match ExpressionOf(table, source[open + 2..close])
      case Err(e) => Err(e)
      case Ok(x) => Ok((x, source[close + 2..]))
  {
    var inner := source[open + 2..];
    assert source[open..][2..] == inner;
    CloseLeavesLess(inner, Outside, []);
    hide Close, ExpressionOf;
  }

  lemma NeverClosed(table: FilterTable, source: string, open: nat)
    requires open + 2 <= |source| && Opens(source[open..]) && Close(source[open + 2..], Outside, []) == None
    ensures ExpressionAt(table, source[open..]) == Err(Unclosed)
  {
    assert source[open..][2..] == source[open + 2..];
  }

  /** The expression whose braces open at `open`, and the place after those that close it. */
  method ReadExpression(table: FilterTable, source: string, open: nat)
    returns (r: Result<(Expression, nat), SyntaxError>)
    requires open + 2 <= |source| && Opens(source[open..])
    ensures
      match ExpressionAt(table, source[open..])
      case Err(e) => r == Err(e)
      case Ok(x) =>
        r.Ok? && open < r.value.1 <= |source| && source[r.value.1 - 1] == '}' && x == (r.value.0, source[r.value.1..])
  {
    var close := FindClose(source, open + 2);
    hide Close, ExpressionOf, Opens, ExpressionAt;
    if close == -1 {
      NeverClosed(table, source, open);
      return Err(Unclosed);
    }
    AfterClose(table, source, open, close);
    var x := ParseExpression(table, source[open + 2..close]);
    if x.Err? {
      return Err(x.error);
    }
    return Ok((x.value, close + 2));
  }

  /** What is left to compile from `i` on gives what the whole source gives. */
  predicate OnTheWay(table: FilterTable, source: string, i: nat, literal: string, parts: seq<Part>) {
    && i <= |source| && (i == 0 || i == |source| || source[i - 1] != '\\')
    && CompileFrom(table, source[i..], literal, parts) == CompileFrom(table, source, [], [])
  }

  method CompileTemplate(table: FilterTable, source: string) returns (r: Result<CompiledTemplate, SyntaxError>)
    ensures
      match Compile(table, source)
      case Err(e) => r == Err(e)
      case Ok(parts) => r == Ok(CompiledTemplate(source, parts, Single(parts)))
  {
    if |source| > MAX_TEMPLATE_LENGTH {
      return Err(TooLong);
    }
    var parts := CompileParts(table, source);
    if parts.Err? {
      return Err(parts.error);
    }
    return Ok(CompiledTemplate(source, parts.value, Single(parts.value)));
  }

  lemma AtTheStart(table: FilterTable, source: string)
    ensures OnTheWay(table, source, 0, [], [])
  {
    assert source[0..] == source;
  }

  method CompileParts(table: FilterTable, source: string) returns (r: Result<seq<Part>, SyntaxError>)
    ensures r == CompileFrom(table, source, [], [])
  {
    var parts, literal, i := [], "", 0;
    AtTheStart(table, source);
    hide CompileFrom, Opens, OnTheWay, ExpressionAt;
    while i < |source|
      invariant i <= |source| && OnTheWay(table, source, i, literal, parts)
      decreases |source| - i
    {
      var open := IndexOfOpen(source, i);
      if open == -1 {
        NoOpening(table, source, i, literal, parts);
        literal := literal + source[i..];
        i := |source|;
        break;
      }
      if open > 0 && source[open - 1] == '\\' {
        EscapedOpening(table, source, i, open, literal, parts);
        literal := literal + source[i..open - 1] + "{{";
        i := open + 2;
        continue;
      }
      PlainOpening(table, source, i, open, literal, parts);
      literal := literal + source[i..open];
      var x := ReadExpression(table, source, open);
      if x.Err? {
        ExpressionFails(table, source, open, literal, parts);
        return Err(x.error);
      }
      ExpressionGoesOn(table, source, open, literal, parts, x.value.1);
      if literal != "" {
        parts := parts + [Text(literal)];
        literal := "";
      }
      parts := parts + [Value(x.value.0)];
      i := x.value.1;
    }
    AtTheEnd(table, source, literal, parts);
    if literal != "" {
      parts := parts + [Text(literal)];
    }
    return Ok(parts);
  }

  lemma ExpressionFails(table: FilterTable, source: string, open: nat, literal: string, parts: seq<Part>)
    requires open < |source| && OnTheWay(table, source, open, literal, parts)
    requires Opens(source[open..]) && ExpressionAt(table, source[open..]).Err?
    ensures CompileFrom(table, source, [], []) == Err(ExpressionAt(table, source[open..]).error)
  {
    hide ExpressionAt;
  }

  lemma ExpressionGoesOn(table: FilterTable, source: string, open: nat, literal: string, parts: seq<Part>, next: nat)
    requires open < next <= |source| && OnTheWay(table, source, open, literal, parts) && source[next - 1] == '}'
    requires Opens(source[open..]) && ExpressionAt(table, source[open..]).Ok?
    requires ExpressionAt(table, source[open..]).value.1 == source[next..]
    ensures OnTheWay(table, source, next, [],
                     Flushed(parts, literal) + [Value(ExpressionAt(table, source[open..]).value.0)])
  {
    hide ExpressionAt;
  }

  lemma AtTheEnd(table: FilterTable, source: string, literal: string, parts: seq<Part>)
    requires OnTheWay(table, source, |source|, literal, parts)
    ensures CompileFrom(table, source, [], []) == Ok(Flushed(parts, literal))
  {
  }

  lemma EscapeIsBeforeOpening(source: string, j: nat)
    requires j < |source|
    ensures Escapes(source[j..]) ==> source[j] == '\\' && Opens(source[j + 1..])
  {
  }

  /** Before the first opening after `i`, the text is literal, but for a backslash right before it. */
  lemma BeforeOpening(table: FilterTable, source: string, i: nat, to: nat, literal: string, parts: seq<Part>)
    requires i <= to <= |source| && (forall k :: i <= k < to ==> !Opens(source[k..]))
    requires !Opens(source[to..]) || to == i || source[to - 1] != '\\'
    ensures CompileFrom(table, source[i..], literal, parts) ==
            CompileFrom(table, source[to..], literal + source[i..to], parts)
  {
    var s, n := source[i..], to - i;
    forall k | 0 <= k < n
      ensures !Opens(s[k..]) && !Escapes(s[k..])
    {
      assert s[k..] == source[i + k..];
      EscapeIsBeforeOpening(source, i + k);
    }
    hide CompileFrom, Opens, Escapes;
    LiteralRun(table, s, n, literal, parts);
    assert s[n..] == source[to..] && s[..n] == source[i..to];
  }

  lemma NoOpening(table: FilterTable, source: string, i: nat, literal: string, parts: seq<Part>)
    requires i < |source| && OnTheWay(table, source, i, literal, parts)
    requires forall k :: i <= k <= |source| ==> !Opens(source[k..])
    ensures OnTheWay(table, source, |source|, literal + source[i..], parts)
  {
    hide CompileFrom, Opens;
    BeforeOpening(table, source, i, |source|, literal, parts);
    assert source[i..|source|] == source[i..];
  }

  lemma EscapeStep(table: FilterTable, source: string, open: nat, literal: string, parts: seq<Part>)
    requires 0 < open < |source| && source[open - 1] == '\\' && Opens(source[open..])
    ensures open + 2 <= |source| && source[open + 1] == '{' && !Opens(source[open - 1..])
    ensures CompileFrom(table, source[open - 1..], literal, parts) ==
            CompileFrom(table, source[open + 2..], literal + "{{", parts)
  {
    var rest := source[open - 1..];
    assert rest[1..] == source[open..] && source[open..][1] == source[open + 1];
    assert Escapes(rest) && rest[3..] == source[open + 2..];
  }

  lemma EscapedOpening(table: FilterTable, source: string, i: nat, open: nat, literal: string, parts: seq<Part>)
    requires OnTheWay(table, source, i, literal, parts) && i <= open < |source| && open > 0 && source[open - 1] == '\\'
    requires Opens(source[open..]) && forall k :: i <= k < open ==> !Opens(source[k..])
    ensures i < open && open + 2 <= |source|
    ensures OnTheWay(table, source, open + 2, literal + source[i..open - 1] + "{{", parts)
  {
    hide CompileFrom, Opens;
    EscapeStep(table, source, open, literal + source[i..open - 1], parts);
    BeforeOpening(table, source, i, open - 1, literal, parts);
  }

  lemma PlainOpening(table: FilterTable, source: string, i: nat, open: nat, literal: string, parts: seq<Part>)
    requires OnTheWay(table, source, i, literal, parts) && i <= open < |source| &&
             (open == 0 || source[open - 1] != '\\')
    requires Opens(source[open..]) && forall k :: i <= k < open ==> !Opens(source[k..])
    ensures OnTheWay(table, source, open, literal + source[i..open], parts)
  {
    hide CompileFrom, Opens;
    BeforeOpening(table, source, i, open, literal, parts);
  }

  // ---- printing ----

  function LeadingBraces(s: string): (n: nat)
    ensures n <= |s|
  {
    if s != [] && s[0] == '{' then 1 + LeadingBraces(s[1..]) else 0
  }

  /** Literal text as written: braces are escaped in pairs, after a single one where their number is odd. */
  function TextSource(text: string): string
    decreases |text|
  {
    if text == [] then []
    else if |text| >= 2 && LeadingBraces(text) >= 2 && LeadingBraces(text) % 2 == 0 then "\\{{" + TextSource(text[2..])
    else [text[0]] + TextSource(text[1..])
  }

  /** Text that can stand before an expression: it ends neither in a backslash nor in one lone brace. */
  predicate CanPrecede(text: string) {
    text != [] ==>
      var last := text[|text| - 1];
      && last != '\\'
      && (last == '{' ==> |text| >= 2 && text[|text| - 2] == '{')
  }

  /** What follows a piece of text: nothing, or an expression that the text can precede. */
  predicate Follows(rest: string, text: string) {
    rest == [] || (Opens(rest) && CanPrecede(text))
  }

  predicate Paired(text: string) {
    |text| >= 2 && LeadingBraces(text) >= 2 && LeadingBraces(text) % 2 == 0
  }

  lemma BracesStep(text: string)
    requires text != [] && text[0] == '{'
    ensures LeadingBraces(text) == 1 + LeadingBraces(text[1..])
    ensures LeadingBraces(text) >= 2 <==> |text| >= 2 && text[1] == '{'
  {
  }

  lemma SourceStarts(text: string)
    requires text != []
    ensures TextSource(text) != [] && TextSource(text)[0] == if Paired(text) then '\\' else text[0]
  {
  }

  /** Written text never begins with an opening, whatever may follow it. */
  lemma TextNeverOpens(text: string, rest: string)
    requires text != [] && Follows(rest, text)
    ensures !Opens(TextSource(text) + rest)
  {
    var s := TextSource(text) + rest;
    OpensIff(s);
    OpensIff(rest);
    SourceStarts(text);
    if !Paired(text) && text[0] == '{' {
      BracesStep(text);
      assert TextSource(text) == ['{'] + TextSource(text[1..]);
      if text[1..] == [] {
        assert s == ['{'] + rest;
      } else {
        SourceStarts(text[1..]);
        if text[1] == '{' {
          BracesStep(text[1..]);
        }
        assert s[1] == TextSource(text[1..])[0];
      }
    }
    hide TextSource, LeadingBraces;
  }

  lemma ThreeBraces()
    ensures !Paired("{{{")
  {
  }

  lemma FollowsPair(text: string, rest: string)
    requires Follows(rest, text) && Paired(text)
    ensures text[..2] == "{{" && Follows(rest, text[2..])
  {
    BracesStep(text);
    assert text != "{{{" by {
      ThreeBraces();
    }
    hide LeadingBraces;
    assert |text| == 3 ==> text == "{{" + [text[2]];
    var tail := text[2..];
    assert tail != [] ==> tail[|tail| - 1] == text[|text| - 1];
    assert |tail| >= 2 ==> tail[|tail| - 2] == text[|text| - 2];
  }

  lemma FollowsOne(text: string, rest: string)
    requires text != [] && Follows(rest, text) && !Paired(text)
    ensures Follows(rest, text[1..])
  {
    if |text| == 2 && text[0] == '{' {
      BracesStep(text);
      assert text[1..] == [text[1]];
      if text[1] == '{' {
        BracesStep(text[1..]);
      }
    }
    hide LeadingBraces;
    var tail := text[1..];
    assert tail != [] ==> tail[|tail| - 1] == text[|text| - 1];
    assert |tail| >= 2 ==> tail[|tail| - 2] == text[|text| - 2];
  }

  lemma PairStep(table: FilterTable, text: string, rest: string, literal: string, parts: seq<Part>)
    requires Paired(text)
    ensures CompileFrom(table, TextSource(text) + rest, literal, parts) ==
            CompileFrom(table, TextSource(text[2..]) + rest, literal + "{{", parts)
  {
    var s, tail := TextSource(text) + rest, TextSource(text[2..]) + rest;
    assert TextSource(text) == "\\{{" + TextSource(text[2..]);
    hide TextSource;
    assert s == "\\{{" + tail && s[3..] == tail;
    OpensIff(s);
  }

  lemma BackslashIsSafe(text: string, rest: string)
    requires text != [] && !Paired(text) && Follows(rest, text) && text[0] == '\\'
    ensures !Opens(TextSource(text[1..]) + rest)
  {
    FollowsOne(text, rest);
    if text[1..] == [] {
      assert TextSource(text[1..]) + rest == rest;
    } else {
      TextNeverOpens(text[1..], rest);
    }
    hide TextSource;
  }

  lemma OneMore(text: string, rest: string)
    requires text != [] && !Paired(text)
    ensures TextSource(text) + rest == [text[0]] + (TextSource(text[1..]) + rest)
  {
  }

  lemma NoEscape(c: char, tail: string)
    requires c == '\\' ==> !Opens(tail)
    ensures !Escapes([c] + tail) && ([c] + tail)[1..] == tail
  {
    OpensIff([c] + tail);
    OpensIff(tail);
  }

  lemma OneStep(table: FilterTable, text: string, rest: string, literal: string, parts: seq<Part>)
    requires text != [] && !Paired(text) && Follows(rest, text)
    ensures CompileFrom(table, TextSource(text) + rest, literal, parts) ==
            CompileFrom(table, TextSource(text[1..]) + rest, literal + [text[0]], parts)
  {
    hide *;
    TextNeverOpens(text, rest);
    OneMore(text, rest);
    if text[0] == '\\' {
      BackslashIsSafe(text, rest);
    }
    NoEscape(text[0], TextSource(text[1..]) + rest);
    PlainStep(table, TextSource(text) + rest, literal, parts);
  }

  lemma Rejoin(literal: string, text: string, n: nat)
    requires n <= |text|
    ensures literal + text[..n] + text[n..] == literal + text
    ensures n == 1 ==> text[..n] == [text[0]]
  {
  }

  /** Compiling written text in front of an expression, or at the end, gathers exactly that text. */
  lemma {:induction false} TextReads(table: FilterTable, text: string, rest: string, literal: string, parts: seq<Part>)
    requires Follows(rest, text)
    ensures CompileFrom(table, TextSource(text) + rest, literal, parts) ==
            CompileFrom(table, rest, literal + text, parts)
    decreases |text|
  {
    if text == [] {
      assert TextSource(text) + rest == rest && literal + text == literal;
      return;
    }
    hide CompileFrom, TextSource, Follows, LeadingBraces;
    if Paired(text) {
      PairStep(table, text, rest, literal, parts);
      FollowsPair(text, rest);
      Rejoin(literal, text, 2);
      TextReads(table, text[2..], rest, literal + "{{", parts);
    } else {
      OneStep(table, text, rest, literal, parts);
      FollowsOne(text, rest);
      Rejoin(literal, text, 1);
      TextReads(table, text[1..], rest, literal + [text[0]], parts);
    }
  }

  // ---- whole templates ----

  /** A part as written. */
  datatype PartSyntax = TextPart(text: string) | ExpressionPart(x: ExpressionSyntax)

  /** Text is not empty, and an expression that it can precede follows it, if anything does. */
  ghost predicate ValidFirst(table: FilterTable, ps: seq<PartSyntax>)
    requires ps != []
  {
    match ps[0]
    case TextPart(text) => text != [] && (|ps| > 1 ==> ps[1].ExpressionPart? && CanPrecede(text))
    case ExpressionPart(x) => ValidExpression(table, x)
  }

  ghost predicate ValidParts(table: FilterTable, ps: seq<PartSyntax>)
    decreases |ps|
  {
    ps == [] || (ValidFirst(table, ps) && ValidParts(table, ps[1..]))
  }

  function PartSource(p: PartSyntax): string {
    match p
    case TextPart(text) => TextSource(text)
    case ExpressionPart(x) => "{{" + ExpressionText(x) + "}}"
  }

  function Source(ps: seq<PartSyntax>): string {
    if ps == [] then [] else PartSource(ps[0]) + Source(ps[1..])
  }

  ghost function PartMeaning(table: FilterTable, p: PartSyntax): Part
    requires p.ExpressionPart? ==> ValidExpression(table, p.x)
  {
    match p
    case TextPart(text) => Text(text)
    case ExpressionPart(x) => Value(ExpressionMeaning(table, x))
  }

  ghost function PartsMeaning(table: FilterTable, ps: seq<PartSyntax>): (r: seq<Part>)
    requires ValidParts(table, ps)
    ensures |r| == |ps|
    decreases |ps|
  {
    if ps == [] then [] else [PartMeaning(table, ps[0])] + PartsMeaning(table, ps[1..])
  }

  lemma BracesOpen(inner: string, rest: string)
    ensures Opens("{{" + inner + "}}" + rest) && ("{{" + inner + "}}" + rest)[2..] == inner + "}}" + rest
  {
  }

  lemma ExpressionAtBraces(table: FilterTable, x: ExpressionSyntax, rest: string)
    requires ValidExpression(table, x)
    ensures Opens("{{" + ExpressionText(x) + "}}" + rest)
    ensures ExpressionAt(table, "{{" + ExpressionText(x) + "}}" + rest) == Ok((ExpressionMeaning(table, x), rest))
  {
    BracesOpen(ExpressionText(x), rest);
    ExpressionIsCalm(table, x);
    CloseAfter(ExpressionText(x), rest, Outside, []);
    ExpressionReads(table, x);
    assert [] + ExpressionText(x) == ExpressionText(x);
    hide ExpressionText, ExpressionOf, ExpressionMeaning, Close, Opens;
  }

  lemma ExpressionStep(table: FilterTable, x: ExpressionSyntax, rest: string, parts: seq<Part>)
    requires ValidExpression(table, x)
    ensures
      CompileFrom(table, "{{" + ExpressionText(x) + "}}" + rest, [], parts) ==
      CompileFrom(table, rest, [], parts + [Value(ExpressionMeaning(table, x))])
  {
    ExpressionAtBraces(table, x, rest);
    hide ExpressionText, ExpressionMeaning, ExpressionAt, Opens;
  }

  /** Text already gathered becomes a part at an opening or at the end. */
  lemma FlushEarly(table: FilterTable, s: string, text: string, parts: seq<Part>)
    requires text != [] && (s == [] || Opens(s))
    ensures CompileFrom(table, s, text, parts) == CompileFrom(table, s, [], parts + [Text(text)])
  {
  }

  lemma SourceOpens(table: FilterTable, ps: seq<PartSyntax>)
    requires ps == [] || ps[0].ExpressionPart?
    ensures Source(ps) == [] || Opens(Source(ps))
  {
  }

  lemma TextPartStep(table: FilterTable, ps: seq<PartSyntax>, parts: seq<Part>)
    requires ps != [] && ps[0].TextPart? && ValidParts(table, ps)
    ensures CompileFrom(table, Source(ps), [], parts) ==
            CompileFrom(table, Source(ps[1..]), [], parts + [Text(ps[0].text)])
  {
    var text, rest := ps[0].text, Source(ps[1..]);
    SourceOpens(table, ps[1..]);
    assert Source(ps) == TextSource(text) + rest && Follows(rest, text) && text != [] && (rest == [] || Opens(rest));
    hide *;
    TextReads(table, text, rest, [], parts);
    assert [] + text == text;
    FlushEarly(table, rest, text, parts);
  }

  lemma PartStep(table: FilterTable, ps: seq<PartSyntax>, parts: seq<Part>)
    requires ps != [] && ValidParts(table, ps)
    ensures CompileFrom(table, Source(ps), [], parts) ==
            CompileFrom(table, Source(ps[1..]), [], parts + [PartMeaning(table, ps[0])])
  {
    if ps[0].TextPart? {
      TextPartStep(table, ps, parts);
    } else {
      ExpressionStep(table, ps[0].x, Source(ps[1..]), parts);
    }
    hide CompileFrom, ExpressionText, ExpressionMeaning, TextSource;
  }

  lemma NoParts(table: FilterTable, parts: seq<Part>)
    ensures CompileFrom(table, Source([]), [], parts) == Ok(parts + PartsMeaning(table, []))
  {
    assert parts + [] == parts;
  }

  lemma MeaningStep(table: FilterTable, ps: seq<PartSyntax>, parts: seq<Part>)
    requires ps != [] && ValidParts(table, ps)
    ensures ValidParts(table, ps[1..])
    ensures parts + [PartMeaning(table, ps[0])] + PartsMeaning(table, ps[1..]) == parts + PartsMeaning(table, ps)
  {
  }

  lemma {:induction false} PartsRead(table: FilterTable, ps: seq<PartSyntax>, parts: seq<Part>)
    requires ValidParts(table, ps)
    ensures CompileFrom(table, Source(ps), [], parts) == Ok(parts + PartsMeaning(table, ps))
    decreases |ps|
  {
    if ps == [] {
      NoParts(table, parts);
      return;
    }
    PartStep(table, ps, parts);
    MeaningStep(table, ps, parts);
    hide *;
    PartsRead(table, ps[1..], parts + [PartMeaning(table, ps[0])]);
  }

  /**
   * Compiling a written template gives the parts it was written from: text, paths with quoted keys and indexes, and
   * filters with their arguments, whatever the quoted text contains and however it is spaced.
   */
  lemma CompileUndoesPrint(table: FilterTable, ps: seq<PartSyntax>)
    requires ValidParts(table, ps) && |Source(ps)| <= MAX_TEMPLATE_LENGTH
    ensures Compile(table, Source(ps)) == Ok(PartsMeaning(table, ps))
  {
    PartsRead(table, ps, []);
    assert [] + PartsMeaning(table, ps) == PartsMeaning(table, ps);
    hide CompileFrom, Source, PartsMeaning;
  }

  // ---- no other text can stand before an expression ----

  ghost predicate WellFormed(parts: seq<Part>) {
    && (forall i :: 0 <= i < |parts| && parts[i].Text? ==> parts[i].text != [])
    && (forall i :: 0 <= i < |parts| - 1 && parts[i].Text? ==> parts[i + 1].Value? && CanPrecede(parts[i].text))
  }

  ghost predicate EndsInValue(parts: seq<Part>) {
    parts == [] || parts[|parts| - 1].Value?
  }

  lemma FlushKeepsForm(parts: seq<Part>, literal: string, x: Expression)
    requires WellFormed(parts) && EndsInValue(parts)
    ensures WellFormed(Flushed(parts, literal))
    ensures CanPrecede(literal) ==>
              WellFormed(Flushed(parts, literal) + [Value(x)]) && EndsInValue(Flushed(parts, literal) + [Value(x)])
  {
  }

  lemma NextCharCanPrecede(s: string, literal: string)
    requires s != [] && !Opens(s) && !Escapes(s) && Opens(s[1..])
    ensures CanPrecede(literal + [s[0]])
  {
  }

  lemma {:induction false} CompiledIsWellFormed(table: FilterTable, s: string, literal: string, parts: seq<Part>)
    requires WellFormed(parts) && EndsInValue(parts) && (Opens(s) ==> CanPrecede(literal))
    ensures
      match CompileFrom(table, s, literal, parts)
      case Err(_) => true
      case Ok(result) => WellFormed(result)
    decreases |s|
  {
    if s == [] {
      FlushKeepsForm(parts, literal, Expression([], [], [], false));
    } else if Opens(s) {
      var x := ExpressionAt(table, s);
      if x.Ok? {
        FlushKeepsForm(parts, literal, x.value.0);
        CompiledIsWellFormed(table, x.value.1, [], Flushed(parts, literal) + [Value(x.value.0)]);
      }
    } else if Escapes(s) {
      CompiledIsWellFormed(table, s[3..], literal + "{{", parts);
    } else {
      if Opens(s[1..]) {
        NextCharCanPrecede(s, literal);
      }
      CompiledIsWellFormed(table, s[1..], literal + [s[0]], parts);
    }
    hide ExpressionAt, WellFormed, EndsInValue, Flushed, Opens, Escapes, CanPrecede;
  }

  /**
   * The conditions on text are exact: whatever compiles, its texts are not empty, no two are adjacent, and one before
   * an expression ends neither in a backslash nor in a lone brace.
   */
  lemma EveryTemplateIsWellFormed(table: FilterTable, source: string)
    requires Compile(table, source).Ok?
    ensures WellFormed(Compile(table, source).value)
  {
    CompiledIsWellFormed(table, source, [], []);
  }
}

/**
 * Printing the parts of a template, and the parts that can be printed (mapper/template-mapper.ts): exactly those that
 * some template compiles to.
 */
module TemplatePrinting {
  import opened Collections
  import opened QuoteScan
  import opened TemplatePath
  import opened TemplateExpression
  import opened Template

  function DigitsOf(n: nat): string {
    if n < 10 then [('0' as int + n) as char] else DigitsOf(n / 10) + [('0' as int + n % 10) as char]
  }

  lemma {:induction false} DigitsRead(n: nat)
    ensures DigitsOf(n) != [] && AllDigits(DigitsOf(n)) && NatOf(DigitsOf(n)) == n
  {
    if n < 10 {
      var s := DigitsOf(n);
      assert s[..0] == [] && NatOf(s[..0]) == 0;
    } else {
      DigitsRead(n / 10);
      assert DigitsOf(n)[..|DigitsOf(n)| - 1] == DigitsOf(n / 10);
    }
  }

  // ---- paths ----

  ghost predicate LegalPath(path: seq<PathSegment>) {
    && 1 <= |path| <= MAX_PATH_DEPTH
    && path[0].Name? && IsAllowedRoot(path[0].name)
    && forall i :: 0 <= i < |path| ==> Permitted(path[i])
  }

  /** Keys are quoted, so that any text can be one. */
  function SegmentSyntaxOf(x: PathSegment): SegmentSyntax {
    match x
    case Name(name) => Quoted('"', Write('"', name))
    case At(index) => Indexed(DigitsOf(index))
  }

  function SegmentSyntaxes(xs: seq<PathSegment>): (r: seq<SegmentSyntax>)
    ensures |r| == |xs|
  {
    if xs == [] then [] else [SegmentSyntaxOf(xs[0])] + SegmentSyntaxes(xs[1..])
  }

  lemma SegmentPrints(x: PathSegment)
    ensures ValidSegment(SegmentSyntaxOf(x)) && SegmentMeaning(SegmentSyntaxOf(x)) == x
  {
    match x
    case Name(name) => WriteValues('"', name);
    case At(index) => DigitsRead(index);
  }

  lemma {:induction false} SegmentsPrint(xs: seq<PathSegment>)
    ensures ValidSegments(SegmentSyntaxes(xs)) && SegmentsMeaning(SegmentSyntaxes(xs)) == xs
  {
    if xs != [] {
      SegmentPrints(xs[0]);
      SegmentsPrint(xs[1..]);
      assert SegmentSyntaxes(xs)[1..] == SegmentSyntaxes(xs[1..]);
    }
    hide SegmentSyntaxOf, SegmentMeaning, ValidSegment;
  }

  function PathSyntaxOf(path: seq<PathSegment>): PathSyntax
    requires path != [] && path[0].Name?
  {
    PathSyntax(path[0].name, SegmentSyntaxes(path[1..]))
  }

  lemma PathPrints(path: seq<PathSegment>)
    requires LegalPath(path)
    ensures ValidPath(PathSyntaxOf(path)) && PathMeaning(PathSyntaxOf(path)) == path
  {
    var xs := SegmentSyntaxes(path[1..]);
    SegmentsPrint(path[1..]);
    forall i | 0 <= i < |xs|
      ensures Permitted(SegmentMeaning(xs[i]))
    {
      MeaningAt(xs, i);
      assert Permitted(path[i + 1]);
    }
    hide IsAllowedRoot, Permitted, ValidSegments, SegmentSyntaxes;
  }

  // ---- filters ----

  predicate DecimalFor(n: real, negative: bool, whole: string, frac: string) {
    whole != [] && AllDigits(whole) && AllDigits(frac) && n == Signed(negative, Magnitude(whole, frac))
  }

  /** A number that digits, with a sign and a fraction if need be, can write. */
  ghost predicate IsDecimal(n: real) {
    exists negative, whole, frac :: DecimalFor(n, negative, whole, frac)
  }

  /** Every integer is one. */
  lemma IntegersAreDecimal(n: int)
    ensures IsDecimal(n as real)
  {
    var magnitude: nat := if n < 0 then -n else n;
    DigitsRead(magnitude);
    assert DecimalFor(n as real, n < 0, DigitsOf(magnitude), []);
  }

  ghost predicate LegalArg(a: FilterArg) {
    a.Number? ==> IsDecimal(a.n)
  }

  ghost function ArgSyntaxOf(a: FilterArg): ArgSyntax
    requires LegalArg(a)
  {
    match a
    case Str(text) => Quote('"', Write('"', text))
    case Number(n) =>
      var negative, whole, frac :| DecimalFor(n, negative, whole, frac);
      Decimal(negative, whole, frac)
    case Boolean(b) => Truth(b)
    case NullArg => Null
  }

  lemma ArgPrints(a: FilterArg)
    requires LegalArg(a)
    ensures ValidArg(ArgSyntaxOf(a)) && ArgMeaning(ArgSyntaxOf(a)) == a
  {
    if a.Str? {
      WriteValues('"', a.text);
    }
  }

  ghost predicate LegalArgs(xs: seq<FilterArg>) {
    forall i :: 0 <= i < |xs| ==> LegalArg(xs[i])
  }

  ghost function ArgSyntaxes(xs: seq<FilterArg>): (r: seq<PaddedArg>)
    requires LegalArgs(xs)
    ensures |r| == |xs|
  {
    if xs == [] then [] else [PaddedArg([], ArgSyntaxOf(xs[0]), [])] + ArgSyntaxes(xs[1..])
  }

  lemma {:induction false} ArgsPrint(xs: seq<FilterArg>)
    requires LegalArgs(xs)
    ensures ValidArgs(ArgSyntaxes(xs)) && ArgsMeaning(ArgSyntaxes(xs)) == xs
  {
    if xs != [] {
      ArgPrints(xs[0]);
      ArgsPrint(xs[1..]);
      assert ArgSyntaxes(xs)[1..] == ArgSyntaxes(xs[1..]);
    }
    hide ArgSyntaxOf, ArgMeaning, ValidArg, LegalArg;
  }

  ghost predicate LegalCall(table: FilterTable, c: FilterCall) {
    IsFilterName(c.name) && c.name in table && LegalArgs(c.args) && Accepts(table[c.name], c.args)
  }

  ghost function FilterSyntaxOf(c: FilterCall): FilterSyntax
    requires LegalArgs(c.args)
  {
    FilterSyntax([], c.name, [], ArgSyntaxes(c.args), [])
  }

  lemma CallPrints(table: FilterTable, c: FilterCall)
    requires LegalCall(table, c)
    ensures ValidFilter(table, FilterSyntaxOf(c)) && FilterMeaning(FilterSyntaxOf(c)) == c
  {
    ArgsPrint(c.args);
    hide Accepts, IsFilterName, LegalArgs;
  }

  ghost predicate LegalCalls(table: FilterTable, cs: seq<FilterCall>) {
    forall i :: 0 <= i < |cs| ==> LegalCall(table, cs[i])
  }

  ghost function FilterSyntaxes(table: FilterTable, cs: seq<FilterCall>): (r: seq<FilterSyntax>)
    requires LegalCalls(table, cs)
    ensures |r| == |cs|
  {
    if cs == [] then [] else [FilterSyntaxOf(cs[0])] + FilterSyntaxes(table, cs[1..])
  }

  lemma {:induction false} CallsPrint(table: FilterTable, cs: seq<FilterCall>)
    requires LegalCalls(table, cs)
    ensures ValidFilters(table, FilterSyntaxes(table, cs)) && FiltersMeaning(table, FilterSyntaxes(table, cs)) == cs
  {
    if cs != [] {
      CallPrints(table, cs[0]);
      CallsPrint(table, cs[1..]);
      assert FilterSyntaxes(table, cs)[1..] == FilterSyntaxes(table, cs[1..]);
    }
    hide FilterSyntaxOf, FilterMeaning, ValidFilter, LegalCall;
  }

  // ---- expressions and parts ----

  ghost predicate LegalExpression(table: FilterTable, e: Expression) {
    LegalPath(e.path) && LegalCalls(table, e.filters) && e.hasDefault == HasDefault(e.filters)
  }

  ghost function ExpressionSyntaxOf(table: FilterTable, e: Expression): ExpressionSyntax
    requires LegalExpression(table, e)
  {
    ExpressionSyntax([], PathSyntaxOf(e.path), [], FilterSyntaxes(table, e.filters), [])
  }

  lemma ExpressionPrints(table: FilterTable, e: Expression)
    requires LegalExpression(table, e)
    ensures
      var x := ExpressionSyntaxOf(table, e);
      && ValidExpression(table, x)
      && ExpressionMeaning(table, x) == e.(source := ExpressionCore(x))
  {
    PathPrints(e.path);
    CallsPrint(table, e.filters);
    hide ValidPath, ValidFilters, PathMeaning, FiltersMeaning, HasDefault, LegalCalls;
    hide PathSyntaxOf, FilterSyntaxes, ExpressionCore;
  }

  /** The parts of a template that can be printed; `source` is what printing makes it. */
  ghost predicate Legal(table: FilterTable, parts: seq<Part>) {
    WellFormed(parts) && forall i :: 0 <= i < |parts| && parts[i].Value? ==> LegalExpression(table, parts[i].expression)
  }

  ghost function PartSyntaxOf(table: FilterTable, p: Part): PartSyntax
    requires p.Value? ==> LegalExpression(table, p.expression)
  {
    match p
    case Text(text) => TextPart(text)
    case Value(e) => ExpressionPart(ExpressionSyntaxOf(table, e))
  }

  ghost function PartSyntaxes(table: FilterTable, parts: seq<Part>): (r: seq<PartSyntax>)
    requires Legal(table, parts)
    ensures |r| == |parts|
  {
    if parts == [] then []
    else
      LegalTail(table, parts);
      [PartSyntaxOf(table, parts[0])] + PartSyntaxes(table, parts[1..])
  }

  lemma LegalTail(table: FilterTable, parts: seq<Part>)
    requires Legal(table, parts) && parts != []
    ensures Legal(table, parts[1..]) && (parts[0].Value? ==> LegalExpression(table, parts[0].expression))
  {
  }

  /** The same part, whatever its expression was written as. */
  predicate SamePart(p: Part, q: Part) {
    match p
    case Text(_) => p == q
    case Value(e) =>
      && q.Value? && e.path == q.expression.path && e.filters == q.expression.filters
      && e.hasDefault == q.expression.hasDefault
  }

  ghost predicate SameParts(ps: seq<Part>, qs: seq<Part>) {
    |ps| == |qs| && forall i :: 0 <= i < |ps| ==> SamePart(ps[i], qs[i])
  }

  lemma PartPrints(table: FilterTable, p: Part)
    requires p.Value? ==> LegalExpression(table, p.expression)
    ensures
      var x := PartSyntaxOf(table, p);
      && (x.ExpressionPart? <==> p.Value?)
      && (x.ExpressionPart? ==> ValidExpression(table, x.x))
      && SamePart(PartMeaning(table, x), p)
  {
    if p.Value? {
      ExpressionPrints(table, p.expression);
    }
    hide LegalExpression, ValidExpression, ExpressionSyntaxOf, ExpressionMeaning;
  }

  lemma FirstPartPrints(table: FilterTable, parts: seq<Part>)
    requires Legal(table, parts) && parts != []
    ensures ValidFirst(table, PartSyntaxes(table, parts))
    ensures SamePart(PartMeaning(table, PartSyntaxes(table, parts)[0]), parts[0])
  {
    LegalTail(table, parts);
    PartPrints(table, parts[0]);
    if |parts| > 1 {
      LegalTail(table, parts[1..]);
      assert PartSyntaxes(table, parts)[1] == PartSyntaxes(table, parts[1..])[0];
    }
    hide LegalExpression, ValidExpression, PartMeaning, SamePart, CanPrecede;
  }

  lemma SamePartsStep(p: Part, ps: seq<Part>, qs: seq<Part>)
    requires qs != [] && SamePart(p, qs[0]) && SameParts(ps, qs[1..])
    ensures SameParts([p] + ps, qs)
  {
    hide SamePart;
  }

  lemma {:induction false} PartsPrint(table: FilterTable, parts: seq<Part>)
    requires Legal(table, parts)
    ensures ValidParts(table, PartSyntaxes(table, parts))
    ensures SameParts(PartsMeaning(table, PartSyntaxes(table, parts)), parts)
    decreases |parts|
  {
    if parts == [] {
      return;
    }
    var ps := PartSyntaxes(table, parts);
    LegalTail(table, parts);
    FirstPartPrints(table, parts);
    assert ps[1..] == PartSyntaxes(table, parts[1..]);
    hide LegalExpression, PartMeaning, SamePart, SameParts, ValidFirst, Legal, PartSyntaxes;
    PartsPrint(table, parts[1..]);
    SamePartsStep(PartMeaning(table, ps[0]), PartsMeaning(table, ps[1..]), parts);
  }

  /** The text printed for the parts of a template. */
  ghost function Printed(table: FilterTable, parts: seq<Part>): string
    requires Legal(table, parts)
  {
    Source(PartSyntaxes(table, parts))
  }

  lemma TooLongToCompile(table: FilterTable, source: string)
    requires |source| > MAX_TEMPLATE_LENGTH
    ensures Compile(table, source) == Err(TooLong)
  {
  }

  /** Compiling what is printed for any legal parts gives the same parts, or says that it is too long. */
  lemma PrintedPartsCompileBack(table: FilterTable, parts: seq<Part>)
    requires Legal(table, parts)
    ensures
      var r := Compile(table, Printed(table, parts));
      if |Printed(table, parts)| <= MAX_TEMPLATE_LENGTH then r.Ok? && SameParts(r.value, parts) else r == Err(TooLong)
  {
    PartsPrint(table, parts);
    hide *;
    if |Printed(table, parts)| <= MAX_TEMPLATE_LENGTH {
      CompileUndoesPrint(table, PartSyntaxes(table, parts));
    } else {
      TooLongToCompile(table, Printed(table, parts));
    }
  }

  // ---- nothing else is ever compiled ----

  /** What registerFilter keeps to. */
  ghost predicate ProperNames(table: FilterTable) {
    forall name :: name in table ==> IsFilterName(name)
  }

  lemma {:induction false} TailIsShort(s: string, segments: seq<PathSegment>)
    requires 1 <= |segments| <= MAX_PATH_DEPTH
    ensures
      match PathTail(s, segments)
      case Err(_) => true
      case Ok(path) => 1 <= |path| <= MAX_PATH_DEPTH && path[0] == segments[0]
    decreases |s|
  {
    if s != [] && Segment(s).Ok? && |segments| + 1 <= MAX_PATH_DEPTH {
      var found := Segment(s).value;
      TailIsShort(s[found.1..], segments + [found.0]);
    }
    hide Segment;
  }

  lemma PathIsLegal(input: string)
    ensures
      match Path(input)
      case Err(_) => true
      case Ok(path) => LegalPath(path)
  {
    var n := Run(input, IsIdent);
    TailIsShort(input[n..], [Name(input[..n])]);
    hide Run, PathTail, IsAllowedRoot, Permitted;
  }

  lemma UnsignedIsDecimal(s: string, negative: bool)
    requires Unsigned(s).Some?
    ensures IsDecimal(Signed(negative, Unsigned(s).value))
  {
    var whole := Digits(s);
    var rest := s[|whole|..];
    var frac := if rest == [] then [] else Digits(rest[1..]);
    assert DecimalFor(Signed(negative, Unsigned(s).value), negative, whole, frac);
  }

  lemma ArgIsLegal(raw: string)
    ensures
      match Arg(raw)
      case Err(_) => true
      case Ok(a) => LegalArg(a)
  {
    var t := Trim(raw);
    if t != [] && !IsQuote(t[0]) && NumberOf(t).Some? {
      if t[0] == '-' {
        UnsignedIsDecimal(t[1..], true);
      } else {
        UnsignedIsDecimal(t, false);
        assert Signed(false, Unsigned(t).value) == Unsigned(t).value;
      }
    }
    hide IsDecimal, Unsigned, UnquoteSpec, Trim;
  }

  lemma {:induction false} ArgsAreLegal(pieces: seq<string>)
    ensures
      match Args(pieces)
      case Err(_) => true
      case Ok(args) => LegalArgs(args)
    decreases |pieces|
  {
    if pieces != [] {
      ArgIsLegal(pieces[0]);
      ArgsAreLegal(pieces[1..]);
    }
    hide Arg, LegalArg;
  }

  lemma FilterIsLegal(table: FilterTable, part: string)
    requires ProperNames(table)
    ensures
      match Filter(table, part)
      case Err(_) => true
      case Ok(c) => LegalCall(table, c)
  {
    var trimmed := Trim(part);
    var colon := Colon(trimmed);
    if colon < |trimmed| {
      ArgsAreLegal(Split(trimmed[colon + 1..], ','));
    }
    hide Trim, Colon, Split, Args, Accepts, IsFilterName, LegalArg;
  }

  lemma {:induction false} FiltersAreLegal(table: FilterTable, parts: seq<string>)
    requires ProperNames(table)
    ensures
      match Filters(table, parts)
      case Err(_) => true
      case Ok(cs) => LegalCalls(table, cs)
    decreases |parts|
  {
    if parts != [] {
      FilterIsLegal(table, parts[0]);
      FiltersAreLegal(table, parts[1..]);
    }
    hide Filter, LegalCall;
  }

  lemma ExpressionIsLegal(table: FilterTable, raw: string)
    requires ProperNames(table)
    ensures
      match ExpressionOf(table, raw)
      case Err(_) => true
      case Ok(e) => LegalExpression(table, e)
  {
    var pieces := Split(Trim(raw), '|');
    PathIsLegal(Trim(pieces[0]));
    FiltersAreLegal(table, pieces[1..]);
    hide Split, Trim, Path, Filters, LegalPath, LegalCalls, HasDefault;
  }

  ghost predicate LegalValues(table: FilterTable, parts: seq<Part>) {
    forall i :: 0 <= i < |parts| && parts[i].Value? ==> LegalExpression(table, parts[i].expression)
  }

  lemma {:induction false} CompiledValuesAreLegal(table: FilterTable, s: string, literal: string, parts: seq<Part>)
    requires ProperNames(table) && LegalValues(table, parts)
    ensures
      match CompileFrom(table, s, literal, parts)
      case Err(_) => true
      case Ok(result) => LegalValues(table, result)
    decreases |s|
  {
    if s == [] {
    } else if Opens(s) {
      var x := ExpressionAt(table, s);
      if x.Ok? {
        ExpressionAtIsLegal(table, s);
        CompiledValuesAreLegal(table, x.value.1, [], Flushed(parts, literal) + [Value(x.value.0)]);
      }
    } else if Escapes(s) {
      CompiledValuesAreLegal(table, s[3..], literal + "{{", parts);
    } else {
      CompiledValuesAreLegal(table, s[1..], literal + [s[0]], parts);
    }
    hide ExpressionAt, LegalExpression, Opens, Escapes;
  }

  lemma ExpressionAtIsLegal(table: FilterTable, s: string)
    requires ProperNames(table) && Opens(s) && ExpressionAt(table, s).Ok?
    ensures LegalExpression(table, ExpressionAt(table, s).value.0)
  {
    var c := Close(s[2..], Outside, []);
    ExpressionIsLegal(table, c.value.0);
    hide Close, ExpressionOf, LegalExpression;
  }

  /**
   * Legal parts are exactly the parts of templates: whatever a source compiles to can be printed, and compiles back
   * from its print to the same parts if and only if the print keeps to the length limit.
   */
  lemma CompiledPartsPrintAndCompileBack(table: FilterTable, source: string)
    requires ProperNames(table) && Compile(table, source).Ok?
    ensures Legal(table, Compile(table, source).value)
    ensures
      var parts := Compile(table, source).value;
      var again := Compile(table, Printed(table, parts));
      && (again.Ok? <==> |Printed(table, parts)| <= MAX_TEMPLATE_LENGTH)
      && (again.Ok? ==> SameParts(again.value, parts))
      && (again.Err? ==> again.error == TooLong)
  {
    EveryTemplateIsWellFormed(table, source);
    CompiledValuesAreLegal(table, source, [], []);
    var parts := Compile(table, source).value;
    hide Compile, CompileFrom, WellFormed, LegalExpression, Printed, SameParts;
    PrintedPartsCompileBack(table, parts);
  }
}

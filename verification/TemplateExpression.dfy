/**
 * Filter arguments, filters and whole expressions: the grammar of everything parseArg and parseExpression in
 * mapper/template-mapper.ts accept, and the parsers against it. Arguments may quote any of the characters the
 * scanners look for.
 */
module TemplateExpression {
  import opened Collections
  import opened CodeUnits
  import opened QuoteScan
  import opened TemplatePath

  // ---- trim ----

  predicate IsSpace(c: char) {
    IsWhiteSpace(c as int)
  }

  predicate Blank(s: string) {
    forall i :: 0 <= i < |s| ==> IsSpace(s[i])
  }

  function TrimStart(s: string): string {
    if s != [] && IsSpace(s[0]) then TrimStart(s[1..]) else s
  }

  function TrimEnd(s: string): string {
    if s != [] && IsSpace(s[|s| - 1]) then TrimEnd(s[..|s| - 1]) else s
  }

  function Trim(s: string): string {
    TrimStart(TrimEnd(s))
  }

  /** Neither begins nor ends with white space. */
  predicate Solid(s: string) {
    s != [] && !IsSpace(s[0]) && !IsSpace(s[|s| - 1])
  }

  lemma {:induction false} TrimStartPad(pad: string, s: string)
    requires Blank(pad) && s != [] && !IsSpace(s[0])
    ensures TrimStart(pad + s) == s
  {
    if pad == [] {
      assert pad + s == s;
    } else {
      assert (pad + s)[1..] == pad[1..] + s;
      TrimStartPad(pad[1..], s);
    }
  }

  lemma {:induction false} TrimEndPad(s: string, pad: string)
    requires Blank(pad) && s != [] && !IsSpace(s[|s| - 1])
    ensures TrimEnd(s + pad) == s
  {
    if pad == [] {
      assert s + pad == s;
    } else {
      var n := |pad| - 1;
      assert (s + pad)[..|s| + n] == s + pad[..n];
      TrimEndPad(s, pad[..n]);
    }
  }

  lemma TrimPadded(before: string, s: string, after: string)
    requires Blank(before) && Blank(after) && Solid(s)
    ensures Trim(before + s + after) == s
  {
    var t := before + s;
    TrimEndPad(t, after);
    TrimStartPad(before, s);
  }

  predicate EndsSolid(s: string) {
    s != [] && !IsSpace(s[|s| - 1])
  }

  lemma EndsAfter(before: string, s: string)
    requires EndsSolid(s)
    ensures EndsSolid(before + s) && EndsSolid(before + s + [])
  {
    assert before + s + [] == before + s;
  }

  lemma TrimAfter(s: string, after: string)
    requires Blank(after) && Solid(s)
    ensures Trim(s + after) == s && Trim(s) == s
  {
    TrimPadded([], s, after);
    TrimPadded([], s, []);
    assert [] + s + after == s + after && [] + s + [] == s;
  }

  lemma AfterFirst(c: char, s: string)
    ensures ([c] + s)[1..] == s && [] + s == s
  {
  }

  // ---- arguments ----

  datatype FilterArg = Str(text: string) | Number(n: real) | Boolean(b: bool) | NullArg

  function PowerOfTen(n: nat): (p: nat)
    ensures p > 0
  {
    if n == 0 then 1 else 10 * PowerOfTen(n - 1)
  }

  /** Digits, and more digits after a point if there are any. */
  function Magnitude(whole: string, frac: string): real
    requires AllDigits(whole) && AllDigits(frac)
  {
    NatOf(whole) as real + NatOf(frac) as real / PowerOfTen(|frac|) as real
  }

  function Signed(negative: bool, n: real): real {
    if negative then -n else n
  }

  /** Digits with an optional fraction. */
  function Unsigned(s: string): Option<real> {
    var whole := Digits(s);
    var rest := s[|whole|..];
    if whole == [] then None
    else if rest == [] then Some(Magnitude(whole, []))
    else if rest[0] != '.' then None
    else
      var frac := Digits(rest[1..]);
      if frac == [] || |frac| + 1 < |rest| then None else Some(Magnitude(whole, frac))
  }

  /** The number a text such as -12.5 stands for. */
  function NumberOf(s: string): Option<real> {
    if s != [] && s[0] == '-' then
      match Unsigned(s[1..])
      case None => None
      case Some(n) => Some(Signed(true, n))
    else Unsigned(s)
  }

  function Arg(raw: string): Result<FilterArg, SyntaxError> {
    var t := Trim(raw);
    if t == [] then Err(EmptyArgument)
    else if IsQuote(t[0]) then
      match UnquoteSpec(t)
      case Err(e) => Err(e)
      case Ok(text) => Ok(Str(text))
    else
      match NumberOf(t)
      case Some(n) => Ok(Number(n))
      case None =>
        if t == "true" then Ok(Boolean(true))
        else if t == "false" then Ok(Boolean(false))
        else if t == "null" then Ok(NullArg)
        else Err(InvalidArgument)
  }

  method ParseArg(raw: string) returns (r: Result<FilterArg, SyntaxError>)
    ensures r == Arg(raw)
  {
    var trimmed := Trim(raw);
    if trimmed == "" {
      return Err(EmptyArgument);
    }
    if IsQuote(trimmed[0]) {
      var text := Unquote(trimmed);
      return if text.Ok? then Ok(Str(text.value)) else Err(text.error);
    }
    var number := NumberOf(trimmed);
    if number.Some? {
      return Ok(Number(number.value));
    }
    if trimmed == "true" {
      return Ok(Boolean(true));
    }
    if trimmed == "false" {
      return Ok(Boolean(false));
    }
    if trimmed == "null" {
      return Ok(NullArg);
    }
    return Err(InvalidArgument);
  }

  function Args(pieces: seq<string>): Result<seq<FilterArg>, SyntaxError>
    decreases |pieces|
  {
    if pieces == [] then Ok([])
    else
      match Arg(pieces[0])
      case Err(e) => Err(e)
      case Ok(a) =>
        match Args(pieces[1..])
        case Err(e) => Err(e)
        case Ok(more) => Ok([a] + more)
  }

  // ---- printing arguments ----

  /** An argument as written. */
  datatype ArgSyntax =
    | Quote(q: char, ws: seq<Written>)
    | Decimal(negative: bool, whole: string, frac: string)
    | Truth(b: bool)
    | Null

  ghost predicate ValidArg(x: ArgSyntax) {
    match x
    case Quote(q, ws) => WellWritten(q, ws)
    case Decimal(_, whole, frac) => whole != [] && AllDigits(whole) && AllDigits(frac)
    case _ => true
  }

  function UnsignedText(whole: string, frac: string): string {
    if frac == [] then whole else whole + "." + frac
  }

  function ArgText(x: ArgSyntax): string {
    match x
    case Quote(q, ws) => Literal(q, ws)
    case Decimal(negative, whole, frac) => (if negative then "-" else "") + UnsignedText(whole, frac)
    case Truth(b) => if b then "true" else "false"
    case Null => "null"
  }

  ghost function ArgMeaning(x: ArgSyntax): FilterArg
    requires ValidArg(x)
  {
    match x
    case Quote(_, ws) => Str(Values(ws))
    case Decimal(negative, whole, frac) => Number(Signed(negative, Magnitude(whole, frac)))
    case Truth(b) => Boolean(b)
    case Null => NullArg
  }

  /** Characters of numbers and words. */
  predicate IsWord(c: char) {
    IsIdent(c) || c == '.'
  }

  predicate AllWord(s: string) {
    forall i :: 0 <= i < |s| ==> IsWord(s[i])
  }

  lemma WordIsSolid(s: string)
    requires s != [] && AllWord(s)
    ensures Solid(s) && !IsQuote(s[0])
  {
  }

  lemma WordIsCalm(s: string, bad: char)
    requires AllWord(s) && !IsWord(bad)
    ensures Calm(s, Outside, bad)
  {
    PlainIsCalm(s, bad);
  }

  lemma UnsignedReads(whole: string, frac: string)
    requires whole != [] && AllDigits(whole) && AllDigits(frac)
    ensures Unsigned(UnsignedText(whole, frac)) == Some(Magnitude(whole, frac))
  {
    var s := UnsignedText(whole, frac);
    var rest := if frac == [] then [] else "." + frac;
    assert s == whole + rest;
    RunStops(whole, rest, IsDigit);
    RunStops(frac, [], IsDigit);
    assert frac + [] == frac;
    assert Digits(s) == whole && s[|whole|..] == rest;
    assert frac != [] ==> rest[1..] == frac && Digits(frac) == frac;
  }

  lemma UnsignedIsWord(whole: string, frac: string)
    requires whole != [] && AllDigits(whole) && AllDigits(frac)
    ensures AllWord(UnsignedText(whole, frac)) && UnsignedText(whole, frac) != [] && UnsignedText(whole, frac)[0] != '-'
  {
    assert UnsignedText(whole, frac)[0] == whole[0];
  }

  lemma DecimalReads(negative: bool, whole: string, frac: string)
    requires ValidArg(Decimal(negative, whole, frac))
    ensures NumberOf(ArgText(Decimal(negative, whole, frac))) == Some(Signed(negative, Magnitude(whole, frac)))
    ensures AllWord(ArgText(Decimal(negative, whole, frac)))
  {
    var s := UnsignedText(whole, frac);
    UnsignedReads(whole, frac);
    UnsignedIsWord(whole, frac);
    AfterFirst('-', s);
    hide UnsignedText, Unsigned, Magnitude;
  }

  lemma WordsAreNotNumbers()
    ensures NumberOf("true") == None && NumberOf("false") == None && NumberOf("null") == None
  {
  }

  lemma ArgTextIsSolid(x: ArgSyntax)
    requires ValidArg(x)
    ensures Solid(ArgText(x))
  {
    if x.Decimal? {
      DecimalReads(x.negative, x.whole, x.frac);
      WordIsSolid(ArgText(x));
    }
  }

  /** Reading a written argument, with any white space around it, gives its value. */
  lemma ArgReads(before: string, x: ArgSyntax, after: string)
    requires ValidArg(x) && Blank(before) && Blank(after)
    ensures Arg(before + ArgText(x) + after) == Ok(ArgMeaning(x))
  {
    ArgTextIsSolid(x);
    TrimPadded(before, ArgText(x), after);
    hide Trim, NumberOf, UnquoteSpec, Solid, Magnitude;
    match x
    case Quote(q, ws) => LiteralIsCalm(q, ws, ',');
    case Decimal(negative, whole, frac) =>
      DecimalReads(negative, whole, frac);
      WordIsSolid(ArgText(x));
    case Truth(b) => WordsAreNotNumbers();
    case Null => WordsAreNotNumbers();
  }

  /** The characters the scanners look for outside quotes. */
  predicate IsMark(c: char) {
    c == ',' || c == '|' || c == '}'
  }

  lemma ArgIsCalm(x: ArgSyntax, bad: char)
    requires ValidArg(x) && IsMark(bad)
    ensures Calm(ArgText(x), Outside, bad)
  {
    if x.Quote? {
      LiteralIsCalm(x.q, x.ws, bad);
    } else {
      ArgIsWord(x);
      WordIsCalm(ArgText(x), bad);
    }
    hide *;
  }

  lemma ArgIsWord(x: ArgSyntax)
    requires ValidArg(x) && !x.Quote?
    ensures AllWord(ArgText(x))
  {
    if x.Decimal? {
      DecimalReads(x.negative, x.whole, x.frac);
    }
  }

  lemma BlankIsCalm(pad: string, bad: char)
    requires Blank(pad) && !IsSpace(bad)
    ensures Calm(pad, Outside, bad)
  {
    PlainIsCalm(pad, bad);
  }

  /** The white space after the last argument of a filter belongs to the filter. */
  datatype PaddedArg = PaddedArg(before: string, arg: ArgSyntax, after: string)

  ghost predicate ValidArgs(xs: seq<PaddedArg>) {
    forall i :: 0 <= i < |xs| ==> Blank(xs[i].before) && ValidArg(xs[i].arg) && Blank(xs[i].after)
  }

  function ArgPiece(xs: seq<PaddedArg>): string
    requires xs != []
  {
    xs[0].before + ArgText(xs[0].arg) + if |xs| == 1 then [] else xs[0].after
  }

  function ArgsText(xs: seq<PaddedArg>): string
    requires xs != []
  {
    if |xs| == 1 then ArgPiece(xs) else ArgPiece(xs) + "," + ArgsText(xs[1..])
  }

  function ArgPieces(xs: seq<PaddedArg>): seq<string> {
    if xs == [] then [] else [ArgPiece(xs)] + ArgPieces(xs[1..])
  }

  ghost function ArgsMeaning(xs: seq<PaddedArg>): (r: seq<FilterArg>)
    requires ValidArgs(xs)
    ensures |r| == |xs|
  {
    if xs == [] then [] else [ArgMeaning(xs[0].arg)] + ArgsMeaning(xs[1..])
  }

  lemma ArgPieceIsCalm(xs: seq<PaddedArg>, bad: char)
    requires xs != [] && ValidArgs(xs) && IsMark(bad)
    ensures Calm(ArgPiece(xs), Outside, bad)
  {
    var x := xs[0];
    var after := if |xs| == 1 then [] else x.after;
    BlankIsCalm(x.before, bad);
    ArgIsCalm(x.arg, bad);
    BlankIsCalm(after, bad);
    hide Calm;
    CalmConcat(x.before, ArgText(x.arg), Outside, bad);
    CalmConcat(x.before + ArgText(x.arg), after, Outside, bad);
  }

  lemma {:induction false} ArgsSplit(xs: seq<PaddedArg>)
    requires xs != [] && ValidArgs(xs)
    ensures Split(ArgsText(xs), ',') == ArgPieces(xs)
    decreases |xs|
  {
    ArgPieceIsCalm(xs, ',');
    SplitPiece(ArgPiece(xs), if |xs| == 1 then [] else ArgsText(xs[1..]), ',');
    if |xs| > 1 {
      ArgsSplit(xs[1..]);
    }
  }

  lemma {:induction false} ArgsRead(xs: seq<PaddedArg>)
    requires ValidArgs(xs)
    ensures Args(ArgPieces(xs)) == Ok(ArgsMeaning(xs))
    decreases |xs|
  {
    if xs != [] {
      ArgReads(xs[0].before, xs[0].arg, if |xs| == 1 then [] else xs[0].after);
      ArgsRead(xs[1..]);
      assert ArgPieces(xs)[1..] == ArgPieces(xs[1..]);
    }
  }

  lemma {:induction false} ArgsAreCalm(xs: seq<PaddedArg>, bad: char)
    requires xs != [] && ValidArgs(xs) && IsMark(bad) && bad != ','
    ensures Calm(ArgsText(xs), Outside, bad)
    decreases |xs|
  {
    ArgPieceIsCalm(xs, bad);
    if |xs| > 1 {
      ArgsAreCalm(xs[1..], bad);
      PlainIsCalm(",", bad);
      CalmConcat(ArgPiece(xs), ",", Outside, bad);
      CalmConcat(ArgPiece(xs) + ",", ArgsText(xs[1..]), Outside, bad);
    }
  }

  lemma {:induction false} ArgsEndSolid(xs: seq<PaddedArg>)
    requires xs != [] && ValidArgs(xs)
    ensures EndsSolid(ArgsText(xs))
    decreases |xs|
  {
    var text := ArgText(xs[0].arg);
    ArgTextIsSolid(xs[0].arg);
    hide ArgText;
    if |xs| == 1 {
      EndsAfter(xs[0].before, text);
    } else {
      ArgsEndSolid(xs[1..]);
      EndsAfter(ArgPiece(xs) + ",", ArgsText(xs[1..]));
    }
    hide EndsSolid, ArgPiece;
  }

  // ---- filters ----

  /** What the registry says of a filter; `truncate` checks its arguments further. */
  datatype FilterSpec = FilterSpec(minArgs: nat, maxArgs: nat, isTruncate: bool)

  type FilterTable = map<string, FilterSpec>

  datatype FilterCall = FilterCall(name: string, args: seq<FilterArg>)

  /** A positive integer, and a suffix that is a string if there is one. */
  predicate ValidTruncate(args: seq<FilterArg>) {
    && |args| >= 1 && args[0].Number? && args[0].n.Floor as real == args[0].n && args[0].n >= 1.0
    && (|args| > 1 ==> args[1].Str?)
  }

  predicate Accepts(spec: FilterSpec, args: seq<FilterArg>) {
    spec.minArgs <= |args| <= spec.maxArgs && (spec.isTruncate ==> ValidTruncate(args))
  }

  /** The place of the first colon, or the length. */
  function Colon(s: string): (n: nat)
    ensures n <= |s|
  {
    if s == [] || s[0] == ':' then 0 else 1 + Colon(s[1..])
  }

  function Call(table: FilterTable, name: string, args: Result<seq<FilterArg>, SyntaxError>)
    : Result<FilterCall, SyntaxError>
    requires name in table
  {
    match args
    case Err(e) => Err(e)
    case Ok(values) =>
      if !(table[name].minArgs <= |values| <= table[name].maxArgs) then Err(ArgumentCount)
      else if !Accepts(table[name], values) then Err(InvalidTruncate)
      else Ok(FilterCall(name, values))
  }

  function Filter(table: FilterTable, part: string): Result<FilterCall, SyntaxError> {
    var trimmed := Trim(part);
    var colon := Colon(trimmed);
    var name := Trim(trimmed[..colon]);
    if name !in table then Err(UnknownFilter)
    else Call(table, name, if colon == |trimmed| then Ok([]) else Args(Split(trimmed[colon + 1..], ',')))
  }

  function Filters(table: FilterTable, parts: seq<string>): Result<seq<FilterCall>, SyntaxError>
    decreases |parts|
  {
    if parts == [] then Ok([])
    else
      match Filter(table, parts[0])
      case Err(e) => Err(e)
      case Ok(call) =>
        match Filters(table, parts[1..])
        case Err(e) => Err(e)
        case Ok(more) => Ok([call] + more)
  }

  datatype Expression = Expression(source: string, path: seq<PathSegment>, filters: seq<FilterCall>, hasDefault: bool)

  predicate HasDefault(calls: seq<FilterCall>) {
    exists i :: 0 <= i < |calls| && calls[i].name == "default"
  }

  function ExpressionOf(table: FilterTable, raw: string): Result<Expression, SyntaxError> {
    var source := Trim(raw);
    if source == [] then Err(EmptyExpression)
    else
      var pieces := Split(source, '|');
      match Path(Trim(pieces[0]))
      case Err(e) => Err(e)
      case Ok(path) =>
        match Filters(table, pieces[1..])
        case Err(e) => Err(e)
        case Ok(calls) => Ok(Expression(source, path, calls, HasDefault(calls)))
  }

  predicate IsPositive(arg: FilterArg, n: int) {
    n >= 1 && arg == Number(n as real)
  }

  /** A call is accepted, or refused, by the number of its arguments and, for `truncate`, by what they are. */
  lemma CallIsDecidedRight(table: FilterTable, name: string, args: seq<FilterArg>)
    requires name in table
    ensures
      var spec := table[name];
      var positive := args != [] && exists n :: IsPositive(args[0], n);
      Call(table, name, Ok(args)) ==
      if |args| < spec.minArgs || |args| > spec.maxArgs then Err(ArgumentCount)
      else if spec.isTruncate && (!positive || (|args| >= 2 && !args[1].Str?)) then Err(InvalidTruncate)
      else Ok(FilterCall(name, args))
  {
    if args != [] && args[0].Number? {
      var n := args[0].n.Floor;
      assert args[0].n.Floor as real == args[0].n && args[0].n >= 1.0 ==> IsPositive(args[0], n);
    }
  }

  /** The first digit after a point counts a tenth of what it would before it; nothing after it counts nothing. */
  lemma DecimalsShift(whole: string, digit: char, frac: string)
    requires AllDigits(whole) && IsDigit(digit) && AllDigits(frac)
    ensures Magnitude(whole, []) == NatOf(whole) as real
    ensures 10.0 * Magnitude(whole, [digit] + frac) == Magnitude(whole + [digit], frac)
  {
    assert (whole + [digit])[..|whole|] == whole;
    NatOfFirst(digit, frac);
    var p, d := PowerOfTen(|frac|), digit as int - '0' as int;
    assert PowerOfTen(|[digit] + frac|) == 10 * p;
    ShiftedSum(NatOf(whole), d, NatOf(frac), p);
  }

  lemma ShiftedSum(w: nat, d: nat, f: nat, p: nat)
    requires p > 0
    ensures 10.0 * (w as real + (d * p + f) as real / (10 * p) as real) == (w * 10 + d) as real + f as real / p as real
  {
    var x := f as real / p as real;
    assert (10 * p) as real == 10.0 * p as real && (d * p + f) as real == d as real * p as real + x * p as real;
    assert (d * p + f) as real / (10 * p) as real == (d as real + x) / 10.0;
  }

  lemma TenTimes(d: nat, p: nat, n: nat)
    ensures (d * p + n) * 10 == d * (10 * p) + n * 10
  {
  }

  lemma {:induction false} NatOfFirst(digit: char, frac: string)
    requires IsDigit(digit) && AllDigits(frac)
    ensures NatOf([digit] + frac) == (digit as int - '0' as int) * PowerOfTen(|frac|) + NatOf(frac)
  {
    var all := [digit] + frac;
    if frac == [] {
      assert all[..0] == [];
    } else {
      var front := frac[..|frac| - 1];
      assert all[..|all| - 1] == [digit] + front && all[|all| - 1] == frac[|frac| - 1];
      NatOfFirst(digit, front);
      TenTimes(digit as int - '0' as int, PowerOfTen(|front|), NatOf(front));
    }
  }

  /** Nothing but digits, with digits after a point if there is one, is a number. */
  lemma OnlyDecimalsAreNumbers(s: string) returns (whole: string, frac: string)
    requires Unsigned(s).Some?
    ensures AllDigits(whole) && whole != [] && AllDigits(frac)
    ensures s == (if frac == [] then whole else whole + "." + frac) && Unsigned(s) == Some(Magnitude(whole, frac))
  {
    whole := Digits(s);
    var rest := s[|whole|..];
    frac := if rest == [] then [] else Digits(rest[1..]);
    assert s == whole + rest;
    if rest != [] {
      assert rest == "." + frac;
    }
  }

  method ParseArgs(pieces: seq<string>) returns (r: Result<seq<FilterArg>, SyntaxError>)
    ensures r == Args(pieces)
  {
    var args := [];
    var i := 0;
    assert pieces[0..] == pieces;
    AheadNothing(Args(pieces));
    while i < |pieces|
      invariant 0 <= i <= |pieces|
      invariant Args(pieces) == Ahead(args, Args(pieces[i..]))
    {
      var arg := ParseArg(pieces[i]);
      assert pieces[i..][1..] == pieces[i + 1..];
      if arg.Err? {
        return Err(arg.error);
      }
      AheadStep(args, arg.value, Args(pieces[i + 1..]));
      args := args + [arg.value];
      i := i + 1;
    }
    assert args + [] == args;
    return Ok(args);
  }

  /** `done`, then what comes of the rest. */
  function Ahead<T>(done: seq<T>, rest: Result<seq<T>, SyntaxError>): Result<seq<T>, SyntaxError> {
    match rest
    case Err(e) => Err(e)
    case Ok(more) => Ok(done + more)
  }

  lemma AheadStep<T>(done: seq<T>, x: T, rest: Result<seq<T>, SyntaxError>)
    ensures Ahead(done, Ahead([x], rest)) == Ahead(done + [x], rest)
  {
    if rest.Ok? {
      assert done + ([x] + rest.value) == done + [x] + rest.value;
    }
  }

  method ParseFilter(table: FilterTable, part: string) returns (r: Result<FilterCall, SyntaxError>)
    ensures r == Filter(table, part)
  {
    var trimmed := Trim(part);
    var colon := Colon(trimmed);
    var name := Trim(trimmed[..colon]);
    if name !in table {
      return Err(UnknownFilter);
    }
    var args: Result<seq<FilterArg>, SyntaxError> := Ok([]);
    if colon < |trimmed| {
      var pieces := SplitTopLevel(trimmed[colon + 1..], ',');
      args := ParseArgs(pieces);
    }
    if args.Err? {
      return Err(args.error);
    }
    if |args.value| < table[name].minArgs || |args.value| > table[name].maxArgs {
      return Err(ArgumentCount);
    }
    if table[name].isTruncate && !ValidTruncate(args.value) {
      return Err(InvalidTruncate);
    }
    return Ok(FilterCall(name, args.value));
  }

  method ParseExpression(table: FilterTable, raw: string) returns (r: Result<Expression, SyntaxError>)
    ensures r == ExpressionOf(table, raw)
  {
    var source := Trim(raw);
    if source == "" {
      return Err(EmptyExpression);
    }
    var pieces := SplitTopLevel(source, '|');
    var path := ParsePath(Trim(pieces[0]));
    if path.Err? {
      return Err(path.error);
    }
    var calls, hasDefault := [], false;
    ghost var parts := pieces[1..];
    var i := 1;
    assert pieces[i..] == parts;
    AheadNothing(Filters(table, parts));
    hide Filter, Path, Split, Trim;
    while i < |pieces|
      invariant 1 <= i <= |pieces|
      invariant Filters(table, parts) == Ahead(calls, Filters(table, pieces[i..]))
      invariant hasDefault == HasDefault(calls)
    {
      var call := ParseFilter(table, pieces[i]);
      assert pieces[i..][1..] == pieces[i + 1..];
      if call.Err? {
        return Err(call.error);
      }
      AheadStep(calls, call.value, Filters(table, pieces[i + 1..]));
      DefaultNext(calls, call.value);
      if call.value.name == "default" {
        hasDefault := true;
      }
      calls := calls + [call.value];
      i := i + 1;
    }
    assert calls + [] == calls;
    return Ok(Expression(source, path.value, calls, hasDefault));
  }

  lemma AheadNothing<T>(rest: Result<seq<T>, SyntaxError>)
    ensures Ahead([], rest) == rest
  {
    assert rest.Ok? ==> [] + rest.value == rest.value;
  }

  lemma DefaultNext(calls: seq<FilterCall>, call: FilterCall)
    ensures HasDefault(calls + [call]) <==> HasDefault(calls) || call.name == "default"
  {
    assert (calls + [call])[|calls|] == call;
    if HasDefault(calls) {
      var i :| 0 <= i < |calls| && calls[i].name == "default";
      assert (calls + [call])[i] == calls[i];
    }
  }

  // ---- printing filters and expressions ----

  /** A filter as written; the white space after the last filter belongs to the expression. */
  datatype FilterSyntax = FilterSyntax(before: string, name: string, gap: string, args: seq<PaddedArg>, after: string)

  /** registerFilter takes no other names. */
  predicate IsFilterName(name: string) {
    name != [] && forall i :: 0 <= i < |name| ==> 'a' <= name[i] <= 'z' || IsDigit(name[i]) || name[i] == '_'
  }

  ghost predicate ValidFilter(table: FilterTable, f: FilterSyntax) {
    && IsFilterName(f.name) && f.name in table
    && Blank(f.before) && Blank(f.gap) && Blank(f.after)
    && ValidArgs(f.args) && Accepts(table[f.name], ArgsMeaning(f.args))
  }

  function FilterCore(f: FilterSyntax): string {
    if f.args == [] then f.name else f.name + f.gap + ":" + ArgsText(f.args)
  }

  ghost function FilterMeaning(f: FilterSyntax): FilterCall
    requires ValidArgs(f.args)
  {
    FilterCall(f.name, ArgsMeaning(f.args))
  }

  lemma NameIsWord(name: string)
    requires IsFilterName(name)
    ensures AllWord(name)
  {
  }

  lemma CoreIsSolid(table: FilterTable, f: FilterSyntax)
    requires ValidFilter(table, f)
    ensures Solid(FilterCore(f))
  {
    NameIsWord(f.name);
    WordIsSolid(f.name);
    if f.args != [] {
      ArgsEndSolid(f.args);
      var s, tail := FilterCore(f), ArgsText(f.args);
      assert s[0] == f.name[0] && s[|s| - 1] == tail[|tail| - 1];
    }
  }

  lemma {:induction false} ColonAfter(s: string, rest: string)
    requires forall i :: 0 <= i < |s| ==> s[i] != ':'
    ensures Colon(s) == |s| && Colon(s + ":" + rest) == |s|
  {
    if s != [] {
      ColonAfter(s[1..], rest);
      assert (s + ":" + rest)[1..] == s[1..] + ":" + rest;
    }
  }

  lemma NameHasNoColon(name: string, gap: string)
    requires IsFilterName(name) && Blank(gap)
    ensures forall i :: 0 <= i < |name + gap| ==> (name + gap)[i] != ':'
    ensures Trim(name + gap) == name && Trim(name) == name
  {
    NameIsWord(name);
    WordIsSolid(name);
    TrimAfter(name, gap);
    hide Trim;
    var s := name + gap;
    forall i | 0 <= i < |s|
      ensures s[i] != ':'
    {
      if i >= |name| {
        assert IsSpace(gap[i - |name|]);
      }
    }
  }

  /** What the parser makes of a filter's text once it is trimmed. */
  lemma CoreReads(table: FilterTable, f: FilterSyntax)
    requires ValidFilter(table, f)
    ensures
      var t := FilterCore(f);
      && Trim(t[..Colon(t)]) == f.name
      && (Colon(t) == |t| <==> f.args == [])
      && (f.args != [] ==> t[Colon(t) + 1..] == ArgsText(f.args))
  {
    var t := FilterCore(f);
    if f.args == [] {
      NameHasNoColon(f.name, []);
      assert f.name + [] == f.name;
      ColonAfter(f.name, []);
      assert t[..|t|] == t;
    } else {
      NameHasNoColon(f.name, f.gap);
      ColonAfter(f.name + f.gap, ArgsText(f.args));
      hide Trim, ArgsText, Colon;
      assert t[..|f.name + f.gap|] == f.name + f.gap;
    }
  }

  lemma ArgsParse(xs: seq<PaddedArg>)
    requires xs != [] && ValidArgs(xs)
    ensures Args(Split(ArgsText(xs), ',')) == Ok(ArgsMeaning(xs))
  {
    ArgsSplit(xs);
    ArgsRead(xs);
  }

  lemma CallAccepts(table: FilterTable, f: FilterSyntax)
    requires ValidFilter(table, f)
    ensures Call(table, f.name, Ok(ArgsMeaning(f.args))) == Ok(FilterMeaning(f))
  {
  }

  /** Reading a written filter, with any white space around it, gives its name and arguments. */
  lemma FilterReads(table: FilterTable, f: FilterSyntax, after: string)
    requires ValidFilter(table, f) && Blank(after)
    ensures Filter(table, f.before + FilterCore(f) + after) == Ok(FilterMeaning(f))
  {
    CoreIsSolid(table, f);
    TrimPadded(f.before, FilterCore(f), after);
    CoreReads(table, f);
    CallAccepts(table, f);
    if f.args != [] {
      ArgsParse(f.args);
    }
    hide Trim, Solid, FilterCore, Colon, Split, ArgsText, Args, Call, IsFilterName, ArgMeaning, Accepts;
  }

  lemma CoreIsCalm(table: FilterTable, f: FilterSyntax, bad: char)
    requires ValidFilter(table, f) && IsMark(bad) && bad != ','
    ensures Calm(FilterCore(f), Outside, bad)
  {
    NameIsWord(f.name);
    WordIsCalm(f.name, bad);
    if f.args != [] {
      BlankIsCalm(f.gap, bad);
      PlainIsCalm(":", bad);
      ArgsAreCalm(f.args, bad);
      CalmConcat(f.name, f.gap, Outside, bad);
      CalmConcat(f.name + f.gap, ":", Outside, bad);
      CalmConcat(f.name + f.gap + ":", ArgsText(f.args), Outside, bad);
    }
    hide Calm;
  }

  ghost predicate ValidFilters(table: FilterTable, fs: seq<FilterSyntax>) {
    forall i :: 0 <= i < |fs| ==> ValidFilter(table, fs[i])
  }

  function FilterPiece(fs: seq<FilterSyntax>): string
    requires fs != []
  {
    fs[0].before + FilterCore(fs[0]) + if |fs| == 1 then [] else fs[0].after
  }

  function FiltersText(fs: seq<FilterSyntax>): string
    requires fs != []
  {
    if |fs| == 1 then FilterPiece(fs) else FilterPiece(fs) + "|" + FiltersText(fs[1..])
  }

  function FilterPieces(fs: seq<FilterSyntax>): seq<string> {
    if fs == [] then [] else [FilterPiece(fs)] + FilterPieces(fs[1..])
  }

  ghost function FiltersMeaning(table: FilterTable, fs: seq<FilterSyntax>): (r: seq<FilterCall>)
    requires ValidFilters(table, fs)
    ensures |r| == |fs|
  {
    if fs == [] then [] else [FilterMeaning(fs[0])] + FiltersMeaning(table, fs[1..])
  }

  lemma FilterPieceIsCalm(table: FilterTable, fs: seq<FilterSyntax>, bad: char)
    requires fs != [] && ValidFilters(table, fs) && IsMark(bad) && bad != ','
    ensures Calm(FilterPiece(fs), Outside, bad)
  {
    var f := fs[0];
    var after := if |fs| == 1 then [] else f.after;
    BlankIsCalm(f.before, bad);
    CoreIsCalm(table, f, bad);
    BlankIsCalm(after, bad);
    hide Calm, FilterCore;
    CalmConcat(f.before, FilterCore(f), Outside, bad);
    CalmConcat(f.before + FilterCore(f), after, Outside, bad);
  }

  lemma {:induction false} FiltersSplit(table: FilterTable, fs: seq<FilterSyntax>)
    requires fs != [] && ValidFilters(table, fs)
    ensures Split(FiltersText(fs), '|') == FilterPieces(fs)
    decreases |fs|
  {
    FilterPieceIsCalm(table, fs, '|');
    SplitPiece(FilterPiece(fs), if |fs| == 1 then [] else FiltersText(fs[1..]), '|');
    if |fs| > 1 {
      FiltersSplit(table, fs[1..]);
    }
    hide Calm, FilterPiece, Split;
  }

  lemma {:induction false} FiltersRead(table: FilterTable, fs: seq<FilterSyntax>)
    requires ValidFilters(table, fs)
    ensures Filters(table, FilterPieces(fs)) == Ok(FiltersMeaning(table, fs))
    decreases |fs|
  {
    if fs != [] {
      FilterReads(table, fs[0], if |fs| == 1 then [] else fs[0].after);
      FiltersRead(table, fs[1..]);
      assert FilterPieces(fs)[1..] == FilterPieces(fs[1..]);
    }
    hide Filter, FilterCore, FilterMeaning;
  }

  lemma {:induction false} FiltersAreCalm(table: FilterTable, fs: seq<FilterSyntax>)
    requires fs != [] && ValidFilters(table, fs)
    ensures Calm(FiltersText(fs), Outside, '}')
    decreases |fs|
  {
    FilterPieceIsCalm(table, fs, '}');
    if |fs| > 1 {
      FiltersAreCalm(table, fs[1..]);
      PlainIsCalm("|", '}');
      CalmConcat(FilterPiece(fs), "|", Outside, '}');
      CalmConcat(FilterPiece(fs) + "|", FiltersText(fs[1..]), Outside, '}');
    }
    hide Calm, FilterPiece;
  }

  lemma {:induction false} FiltersEndSolid(table: FilterTable, fs: seq<FilterSyntax>)
    requires fs != [] && ValidFilters(table, fs)
    ensures EndsSolid(FiltersText(fs))
    decreases |fs|
  {
    var core := FilterCore(fs[0]);
    CoreIsSolid(table, fs[0]);
    hide FilterCore;
    if |fs| == 1 {
      EndsAfter(fs[0].before, core);
    } else {
      FiltersEndSolid(table, fs[1..]);
      EndsAfter(FilterPiece(fs) + "|", FiltersText(fs[1..]));
    }
    hide EndsSolid, FilterPiece;
  }

  /** An expression as written between its braces. */
  datatype ExpressionSyntax =
    ExpressionSyntax(before: string, path: PathSyntax, gap: string, filters: seq<FilterSyntax>, after: string)

  ghost predicate ValidExpression(table: FilterTable, x: ExpressionSyntax) {
    ValidPath(x.path) && ValidFilters(table, x.filters) && Blank(x.before) && Blank(x.gap) && Blank(x.after)
  }

  function ExpressionCore(x: ExpressionSyntax): string {
    if x.filters == [] then PathText(x.path) else PathText(x.path) + x.gap + "|" + FiltersText(x.filters)
  }

  function ExpressionText(x: ExpressionSyntax): string {
    x.before + ExpressionCore(x) + x.after
  }

  ghost function ExpressionMeaning(table: FilterTable, x: ExpressionSyntax): Expression
    requires ValidExpression(table, x)
  {
    var calls := FiltersMeaning(table, x.filters);
    Expression(ExpressionCore(x), PathMeaning(x.path), calls, HasDefault(calls))
  }

  lemma SegmentEndsSolid(x: SegmentSyntax)
    requires ValidSegment(x)
    ensures EndsSolid(SegmentText(x))
  {
  }

  lemma {:induction false} SegmentsEndSolid(xs: seq<SegmentSyntax>)
    requires xs != [] && ValidSegments(xs)
    ensures EndsSolid(SegmentsText(xs))
    decreases |xs|
  {
    var text := SegmentText(xs[0]);
    SegmentEndsSolid(xs[0]);
    if |xs| == 1 {
      EndsAfter([], text);
      assert [] + text + [] == text + [];
    } else {
      SegmentsEndSolid(xs[1..]);
      EndsAfter(text, SegmentsText(xs[1..]));
    }
    hide EndsSolid, SegmentText;
  }

  lemma PathIsSolid(p: PathSyntax)
    requires ValidPath(p)
    ensures Solid(PathText(p))
  {
    RootsAreIdents(p.root);
    var t, tail := PathText(p), SegmentsText(p.segments);
    assert t[0] == p.root[0] && !IsSpace(p.root[0]);
    if p.segments == [] {
      assert t == p.root;
    } else {
      SegmentsEndSolid(p.segments);
      assert t[|t| - 1] == tail[|tail| - 1];
    }
  }

  lemma SolidEnds(first: string, gap: string, last: string)
    requires first != [] && !IsSpace(first[0]) && last != [] && !IsSpace(last[|last| - 1])
    ensures Solid(first + gap + "|" + last)
  {
  }

  lemma ExpressionIsSolid(table: FilterTable, x: ExpressionSyntax)
    requires ValidExpression(table, x)
    ensures Solid(ExpressionCore(x))
  {
    PathIsSolid(x.path);
    if x.filters != [] {
      FiltersEndSolid(table, x.filters);
      SolidEnds(PathText(x.path), x.gap, FiltersText(x.filters));
    }
    hide PathText, FiltersText, Solid;
  }

  /** The path's piece is calm, and trimming it leaves the path. */
  lemma PathPiece(p: PathSyntax, gap: string)
    requires ValidPath(p) && Blank(gap)
    ensures Calm(PathText(p) + gap, Outside, '|') && Trim(PathText(p) + gap) == PathText(p)
  {
    PathIsCalm(p, '|');
    PathIsSolid(p);
    BlankIsCalm(gap, '|');
    hide *;
    TrimAfter(PathText(p), gap);
    CalmConcat(PathText(p), gap, Outside, '|');
  }

  lemma ExpressionSplits(table: FilterTable, x: ExpressionSyntax)
    requires ValidExpression(table, x)
    ensures
      var pieces := Split(ExpressionCore(x), '|');
      && pieces[1..] == FilterPieces(x.filters)
      && Trim(pieces[0]) == PathText(x.path)
  {
    var gap := if x.filters == [] then [] else x.gap;
    PathPiece(x.path, gap);
    CoreParts(x);
    if x.filters == [] {
      assert PathText(x.path) + [] == PathText(x.path);
      SplitPiece(PathText(x.path), [], '|');
    } else {
      FiltersSplit(table, x.filters);
      SplitPiece(PathText(x.path) + gap, FiltersText(x.filters), '|');
    }
    hide *;
  }

  lemma CoreParts(x: ExpressionSyntax)
    ensures x.filters == [] ==> ExpressionCore(x) == PathText(x.path) + [] && FilterPieces(x.filters) == []
    ensures x.filters != [] ==> ExpressionCore(x) == PathText(x.path) + x.gap + ['|'] + FiltersText(x.filters)
  {
  }

  /** Reading a written expression gives its path and its filters. */
  lemma ExpressionReads(table: FilterTable, x: ExpressionSyntax)
    requires ValidExpression(table, x)
    ensures ExpressionOf(table, ExpressionText(x)) == Ok(ExpressionMeaning(table, x))
  {
    ExpressionIsSolid(table, x);
    TrimPadded(x.before, ExpressionCore(x), x.after);
    ExpressionSplits(table, x);
    PathReads(x.path);
    FiltersRead(table, x.filters);
    hide Trim, Split, Path, Filters, FilterPieces, PathText, ExpressionCore, PathMeaning, FiltersMeaning, HasDefault;
  }

  lemma ExpressionIsCalm(table: FilterTable, x: ExpressionSyntax)
    requires ValidExpression(table, x)
    ensures Calm(ExpressionText(x), Outside, '}')
  {
    PathIsCalm(x.path, '}');
    BlankIsCalm(x.before, '}');
    BlankIsCalm(x.gap, '}');
    BlankIsCalm(x.after, '}');
    if x.filters != [] {
      FiltersAreCalm(table, x.filters);
      PlainIsCalm("|", '}');
      CalmConcat(PathText(x.path), x.gap, Outside, '}');
      CalmConcat(PathText(x.path) + x.gap, "|", Outside, '}');
      CalmConcat(PathText(x.path) + x.gap + "|", FiltersText(x.filters), Outside, '}');
    }
    hide Calm, PathText, FiltersText;
    CalmConcat(x.before, ExpressionCore(x), Outside, '}');
    CalmConcat(x.before + ExpressionCore(x), x.after, Outside, '}');
  }
}

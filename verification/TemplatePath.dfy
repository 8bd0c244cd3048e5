/**
 * Paths such as steps.send["message id"].items[0]: the grammar of everything parsePath in mapper/template-mapper.ts
 * accepts, and the parser against it.
 */
module TemplatePath {
  import opened Collections
  import opened QuoteScan

  const MAX_PATH_DEPTH := 32

  predicate IsForbidden(name: string) {
    name == "__proto__" || name == "prototype" || name == "constructor"
  }

  predicate IsAllowedRoot(name: string) {
    name == "trigger" || name == "steps" || name == "workflow" || name == "execution"
  }

  datatype PathSegment = Name(name: string) | At(index: nat)

  predicate IsDigit(c: char) {
    '0' <= c <= '9'
  }

  /** [A-Za-z0-9_$-] */
  predicate IsIdent(c: char) {
    'A' <= c <= 'Z' || 'a' <= c <= 'z' || IsDigit(c) || c == '_' || c == '$' || c == '-'
  }

  /** The length of the longest prefix whose characters satisfy `p`. */
  function Run(s: string, p: char -> bool): (n: nat)
    ensures n <= |s|
    ensures forall i :: 0 <= i < n ==> p(s[i])
  {
    if s != [] && p(s[0]) then 1 + Run(s[1..], p) else 0
  }

  lemma {:induction false} RunStops(a: string, b: string, p: char -> bool)
    requires forall i :: 0 <= i < |a| ==> p(a[i])
    requires b == [] || !p(b[0])
    ensures Run(a + b, p) == |a|
  {
    if a == [] {
      assert a + b == b;
    } else {
      assert (a + b)[1..] == a[1..] + b;
      RunStops(a[1..], b, p);
    }
  }

  predicate AllDigits(s: string) {
    forall i :: 0 <= i < |s| ==> IsDigit(s[i])
  }

  function NatOf(digits: string): nat
    requires AllDigits(digits)
  {
    if digits == [] then 0 else NatOf(digits[..|digits| - 1]) * 10 + (digits[|digits| - 1] as int - '0' as int)
  }

  /** The place of the closing quote in what follows an opening one. */
  function StringEnd(s: string, q: char): (k: Option<nat>)
    ensures k.Some? ==> k.value < |s| && s[k.value] == q
    decreases |s|
  {
    if s == [] then None
    else if s[0] == q then Some(0)
    else
      var step := if s[0] == '\\' then 2 else 1;
      if step > |s| then None
      else
        match StringEnd(s[step..], q)
        case None => None
        case Some(k) => Some(step + k)
  }

  function DotSegment(s: string): (r: Result<(PathSegment, nat), SyntaxError>)
    requires s != []
    ensures r.Ok? ==> 0 < r.value.1 <= |s|
  {
    var n := Run(s[1..], IsIdent);
    if n == 0 then Err(InvalidPath) else Ok((Name(s[1..1 + n]), 1 + n))
  }

  function QuotedSegment(s: string): (r: Result<(PathSegment, nat), SyntaxError>)
    requires |s| > 1
    ensures r.Ok? ==> 0 < r.value.1 <= |s|
  {
    match StringEnd(s[2..], s[1])
    case None => Err(UnterminatedString)
    case Some(k) =>
      if 3 + k < |s| && s[3 + k] == ']' then Ok((Name(Body(s[2..3 + k])), 4 + k)) else Err(MissingBracket)
  }

  function Digits(s: string): (r: string)
    ensures r == s[..Run(s, IsDigit)] && AllDigits(r)
  {
    s[..Run(s, IsDigit)]
  }

  function IndexSegment(s: string): (r: Result<(PathSegment, nat), SyntaxError>)
    requires s != []
    ensures r.Ok? ==> 0 < r.value.1 <= |s|
  {
    var digits := Digits(s[1..]);
    var n := |digits|;
    if n == 0 then Err(InvalidIndex)
    else if 1 + n < |s| && s[1 + n] == ']' then Ok((At(NatOf(digits)), 2 + n))
    else Err(MissingBracket)
  }

  /** The segment at the start of `s` and its length. */
  function Segment(s: string): (r: Result<(PathSegment, nat), SyntaxError>)
    requires s != []
    ensures r.Ok? ==> 0 < r.value.1 <= |s|
  {
    if s[0] == '.' then DotSegment(s)
    else if s[0] != '[' then Err(UnexpectedCharacter)
    else if |s| > 1 && IsQuote(s[1]) then QuotedSegment(s)
    else IndexSegment(s)
  }

  /** The rest of a path once `segments` have been read. */
  function PathTail(s: string, segments: seq<PathSegment>): Result<seq<PathSegment>, SyntaxError>
    decreases |s|
  {
    if s == [] then Ok(segments)
    else
      match Segment(s)
      case Err(e) => Err(e)
      case Ok(found) =>
        if |segments| + 1 > MAX_PATH_DEPTH then Err(TooDeep) else PathTail(s[found.1..], segments + [found.0])
  }

  predicate Permitted(segment: PathSegment) {
    segment.Name? ==> !IsForbidden(segment.name)
  }

  function Path(input: string): Result<seq<PathSegment>, SyntaxError> {
    var n := Run(input, IsIdent);
    if n == 0 then Err(InvalidPath)
    else if !IsAllowedRoot(input[..n]) then Err(UnknownRoot)
    else
      match PathTail(input[n..], [Name(input[..n])])
      case Err(e) => Err(e)
      case Ok(segments) =>
        if forall i :: 0 <= i < |segments| ==> Permitted(segments[i]) then Ok(segments) else Err(ForbiddenSegment)
  }

  // ---- the loops ----

  /** Where the string that began before `start` ends, as seen from `end`. */
  function EndFrom(input: string, start: nat, end: nat, q: char): Option<nat>
    requires start <= end <= |input|
  {
    match StringEnd(input[end..], q)
    case None => None
    case Some(k) => Some(end + k)
  }

  lemma EndStep(input: string, start: nat, end: nat, q: char)
    requires start <= end < |input|
    ensures
      var next := end + if input[end] == '\\' then 2 else 1;
      EndFrom(input, start, end, q) ==
      if input[end] == q then Some(end) else if next > |input| then None else EndFrom(input, start, next, q)
  {
  }

  method FindStringEnd(input: string, start: nat, q: char) returns (end: nat)
    requires start <= |input|
    ensures
      match StringEnd(input[start..], q)
      case None => end >= |input|
      case Some(k) => end == start + k && end < |input|
  {
    end := start;
    hide StringEnd;
    while end < |input| && input[end] != q
      invariant start <= end <= |input| + 1
      invariant EndFrom(input, start, start, q) == if end <= |input| then EndFrom(input, start, end, q) else None
      decreases |input| - end
    {
      EndStep(input, start, end, q);
      hide EndFrom;
      end := end + if input[end] == '\\' then 2 else 1;
    }
    if end < |input| {
      EndStep(input, start, end, q);
    } else if end == |input| {
      NoEnd(input, start, q);
    }
  }

  lemma NoEnd(input: string, start: nat, q: char)
    requires start <= |input|
    ensures EndFrom(input, start, |input|, q) == None
  {
  }

  method ParsePath(input: string) returns (r: Result<seq<PathSegment>, SyntaxError>)
    ensures r == Path(input)
  {
    var i := Run(input, IsIdent);
    if i == 0 {
      return Err(InvalidPath);
    }
    if !IsAllowedRoot(input[..i]) {
      return Err(UnknownRoot);
    }
    var segments := ReadSegments(input, i, Name(input[..i]));
    if segments.Err? {
      return segments;
    }
    var permitted := AllPermitted(segments.value);
    return if permitted then segments else Err(ForbiddenSegment);
  }

  method ReadSegments(input: string, start: nat, root: PathSegment) returns (r: Result<seq<PathSegment>, SyntaxError>)
    requires start <= |input|
    ensures r == PathTail(input[start..], [root])
  {
    var i := start;
    var segments := [root];
    hide Segment;
    while i < |input|
      invariant start <= i <= |input| && PathTail(input[i..], segments) == PathTail(input[start..], [root])
    {
      var found := NextSegment(input, i);
      if found.Err? {
        return Err(found.error);
      }
      assert input[i..][found.value.1..] == input[i + found.value.1..];
      segments := segments + [found.value.0];
      i := i + found.value.1;
      if |segments| > MAX_PATH_DEPTH {
        return Err(TooDeep);
      }
    }
    return Ok(segments);
  }

  method AllPermitted(segments: seq<PathSegment>) returns (permitted: bool)
    ensures permitted <==> forall i :: 0 <= i < |segments| ==> Permitted(segments[i])
  {
    var k := 0;
    while k < |segments|
      invariant 0 <= k <= |segments|
      invariant forall j :: 0 <= j < k ==> Permitted(segments[j])
    {
      if segments[k].Name? && IsForbidden(segments[k].name) {
        assert !Permitted(segments[k]);
        return false;
      }
      k := k + 1;
    }
    return true;
  }

  method NextSegment(input: string, i: nat) returns (r: Result<(PathSegment, nat), SyntaxError>)
    requires i < |input|
    ensures r == Segment(input[i..])
  {
    var s := input[i..];
    if s[0] == '.' {
      return DotSegment(s);
    }
    if s[0] != '[' {
      return Err(UnexpectedCharacter);
    }
    if |s| > 1 && IsQuote(s[1]) {
      var end := FindStringEnd(s, 2, s[1]);
      if end >= |s| {
        return Err(UnterminatedString);
      }
      var name := Unquote(s[1..end + 1]);
      assert s[1..end + 1][1..] == s[2..end + 1];
      return if end + 1 < |s| && s[end + 1] == ']' then Ok((Name(name.value), end + 2)) else Err(MissingBracket);
    }
    return IndexSegment(s);
  }

  // ---- printing ----

  /** A segment as written. */
  datatype SegmentSyntax = Dotted(name: string) | Quoted(q: char, ws: seq<Written>) | Indexed(digits: string)

  ghost predicate ValidSegment(x: SegmentSyntax) {
    match x
    case Dotted(name) => name != [] && forall i :: 0 <= i < |name| ==> IsIdent(name[i])
    case Quoted(q, ws) => WellWritten(q, ws)
    case Indexed(digits) => digits != [] && AllDigits(digits)
  }

  function SegmentText(x: SegmentSyntax): string {
    match x
    case Dotted(name) => "." + name
    case Quoted(q, ws) => "[" + Literal(q, ws) + "]"
    case Indexed(digits) => "[" + digits + "]"
  }

  ghost function SegmentMeaning(x: SegmentSyntax): PathSegment
    requires ValidSegment(x)
  {
    match x
    case Dotted(name) => Name(name)
    case Quoted(_, ws) => Name(Values(ws))
    case Indexed(digits) => At(NatOf(digits))
  }

  ghost predicate ValidSegments(xs: seq<SegmentSyntax>) {
    forall i :: 0 <= i < |xs| ==> ValidSegment(xs[i])
  }

  function SegmentsText(xs: seq<SegmentSyntax>): string {
    if xs == [] then [] else SegmentText(xs[0]) + SegmentsText(xs[1..])
  }

  ghost function SegmentsMeaning(xs: seq<SegmentSyntax>): (r: seq<PathSegment>)
    requires ValidSegments(xs)
    ensures |r| == |xs|
  {
    if xs == [] then [] else [SegmentMeaning(xs[0])] + SegmentsMeaning(xs[1..])
  }

  lemma {:induction false} MeaningAt(xs: seq<SegmentSyntax>, i: nat)
    requires ValidSegments(xs) && i < |xs|
    ensures SegmentsMeaning(xs)[i] == SegmentMeaning(xs[i])
  {
    if i > 0 {
      MeaningAt(xs[1..], i - 1);
    }
  }

  lemma {:induction false} StringEndOfInner(q: char, ws: seq<Written>, rest: string)
    requires WellWritten(q, ws)
    ensures StringEnd(Inner(ws) + ([q] + rest), q) == Some(|Inner(ws)|)
    decreases |ws|
  {
    var s := Inner(ws) + ([q] + rest);
    if ws != [] {
      var tail := Inner(ws[1..]) + ([q] + rest);
      assert if ws[0].Plain? then s == [ws[0].c] + tail else s == ['\\', ws[0].c] + tail;
      assert |Inner(ws)| == |Inner(ws[1..])| + if ws[0].Plain? then 1 else 2;
      EndSkips(ws[0], tail, q);
      hide Inner, StringEnd;
      StringEndOfInner(q, ws[1..], rest);
    }
  }

  lemma EndSkips(w: Written, tail: string, q: char)
    requires w.Plain? ==> w.c != q && w.c != '\\'
    requires IsQuote(q)
    ensures
      var first := if w.Plain? then [w.c] else ['\\', w.c];
      StringEnd(first + tail, q) ==
      match StringEnd(tail, q)
      case None => None
      case Some(k) => Some(|first| + k)
  {
  }

  predicate FollowsSegment(rest: string) {
    rest == [] || !IsIdent(rest[0])
  }

  lemma DottedReads(name: string, rest: string)
    requires ValidSegment(Dotted(name)) && FollowsSegment(rest)
    ensures Segment(SegmentText(Dotted(name)) + rest) == Ok((Name(name), 1 + |name|))
  {
    var s := SegmentText(Dotted(name)) + rest;
    assert s[1..] == name + rest;
    RunStops(name, rest, IsIdent);
    hide Run;
    assert s[1..1 + |name|] == name;
  }

  lemma Unwrap(open: char, inner: string, close: char, rest: string)
    ensures ([open] + inner + [close] + rest)[1..] == inner + ([close] + rest)
  {
  }

  lemma IndexedReads(digits: string, rest: string)
    requires ValidSegment(Indexed(digits))
    ensures Segment(SegmentText(Indexed(digits)) + rest) == Ok((At(NatOf(digits)), 2 + |digits|))
  {
    var s := SegmentText(Indexed(digits)) + rest;
    Unwrap('[', digits, ']', rest);
    var inner := digits + ("]" + rest);
    assert s == "[" + inner;
    RunStops(digits, "]" + rest, IsDigit);
    assert inner[..|digits|] == digits && inner[|digits|] == ']' && IsDigit(inner[0]);
    hide *;
    IndexReads(inner, digits);
  }

  /** A bracket, digits and a bracket. */
  lemma IndexReads(inner: string, digits: string)
    requires digits != [] && AllDigits(digits) && Run(inner, IsDigit) == |digits| && digits == inner[..|digits|]
    requires |digits| < |inner| && inner[|digits|] == ']'
    ensures Segment("[" + inner) == Ok((At(NatOf(digits)), 2 + |digits|))
  {
  }

  lemma QuotedReads(q: char, ws: seq<Written>, rest: string)
    requires WellWritten(q, ws)
    ensures Segment(SegmentText(Quoted(q, ws)) + rest) == Ok((Name(Values(ws)), |SegmentText(Quoted(q, ws))|))
  {
    var s := SegmentText(Quoted(q, ws)) + rest;
    var k := |Inner(ws)|;
    assert s[2..] == Inner(ws) + ([q] + ("]" + rest));
    StringEndOfInner(q, ws, "]" + rest);
    assert s[2..3 + k] == Inner(ws) + [q];
    BodyOfInner(q, ws);
    hide StringEnd, Body, Inner;
    assert s[1] == q && s[3 + k] == ']';
  }

  lemma SegmentReads(x: SegmentSyntax, rest: string)
    requires ValidSegment(x) && FollowsSegment(rest)
    ensures Segment(SegmentText(x) + rest) == Ok((SegmentMeaning(x), |SegmentText(x)|))
  {
    hide Segment;
    match x
    case Dotted(name) => DottedReads(name, rest);
    case Quoted(q, ws) => QuotedReads(q, ws, rest);
    case Indexed(digits) => IndexedReads(digits, rest);
  }

  lemma TailStep(text: string, rest: string, done: seq<PathSegment>, segment: PathSegment)
    requires text != [] && Segment(text + rest) == Ok((segment, |text|)) && |done| + 1 <= MAX_PATH_DEPTH
    ensures PathTail(text + rest, done) == PathTail(rest, done + [segment])
  {
  }

  lemma ReadOne(xs: seq<SegmentSyntax>, done: seq<PathSegment>)
    requires ValidSegments(xs) && xs != [] && |done| + 1 <= MAX_PATH_DEPTH
    ensures PathTail(SegmentsText(xs), done) == PathTail(SegmentsText(xs[1..]), done + [SegmentMeaning(xs[0])])
  {
    var rest := SegmentsText(xs[1..]);
    assert SegmentsText(xs) == SegmentText(xs[0]) + rest && SegmentText(xs[0]) != [];
    SegmentsFollow(xs[1..]);
    SegmentReads(xs[0], rest);
    hide *;
    TailStep(SegmentText(xs[0]), rest, done, SegmentMeaning(xs[0]));
  }

  lemma Assoc(done: seq<PathSegment>, m: PathSegment, rest: seq<PathSegment>)
    ensures done + [m] + rest == done + ([m] + rest)
  {
  }

  lemma {:induction false} SegmentsRead(xs: seq<SegmentSyntax>, done: seq<PathSegment>)
    requires ValidSegments(xs) && |done| + |xs| <= MAX_PATH_DEPTH
    ensures PathTail(SegmentsText(xs), done) == Ok(done + SegmentsMeaning(xs))
    decreases |xs|
  {
    if xs == [] {
      NothingRead(done);
      return;
    }
    var m := SegmentMeaning(xs[0]);
    ReadOne(xs, done);
    MeaningStep(xs);
    hide *;
    SegmentsRead(xs[1..], done + [m]);
    Assoc(done, m, SegmentsMeaning(xs[1..]));
  }

  lemma NothingRead(done: seq<PathSegment>)
    ensures PathTail(SegmentsText([]), done) == Ok(done + SegmentsMeaning([]))
  {
    assert done + SegmentsMeaning([]) == done;
  }

  lemma MeaningStep(xs: seq<SegmentSyntax>)
    requires ValidSegments(xs) && xs != []
    ensures ValidSegments(xs[1..]) && SegmentsMeaning(xs) == [SegmentMeaning(xs[0])] + SegmentsMeaning(xs[1..])
  {
  }

  lemma SegmentsFollow(xs: seq<SegmentSyntax>)
    ensures FollowsSegment(SegmentsText(xs))
  {
  }

  datatype PathSyntax = PathSyntax(root: string, segments: seq<SegmentSyntax>)

  function PathText(p: PathSyntax): string {
    p.root + SegmentsText(p.segments)
  }

  ghost function PathMeaning(p: PathSyntax): seq<PathSegment>
    requires ValidSegments(p.segments)
  {
    [Name(p.root)] + SegmentsMeaning(p.segments)
  }

  /** An allowed root, at most 32 segments with it, and none of the forbidden names. */
  ghost predicate ValidPath(p: PathSyntax) {
    && IsAllowedRoot(p.root)
    && ValidSegments(p.segments) && 1 + |p.segments| <= MAX_PATH_DEPTH
    && forall i :: 0 <= i < |p.segments| ==> Permitted(SegmentMeaning(p.segments[i]))
  }

  lemma RootsAreIdents(root: string)
    requires IsAllowedRoot(root)
    ensures root != [] && (forall i :: 0 <= i < |root| ==> IsIdent(root[i])) && !IsForbidden(root)
  {
  }

  lemma PathIsPermitted(p: PathSyntax)
    requires ValidPath(p)
    ensures forall i :: 0 <= i < |PathMeaning(p)| ==> Permitted(PathMeaning(p)[i])
  {
    RootsAreIdents(p.root);
    forall i | 0 <= i < |PathMeaning(p)|
      ensures Permitted(PathMeaning(p)[i])
    {
      if i > 0 {
        MeaningAt(p.segments, i - 1);
      }
    }
  }

  /** The root ends where the segments begin. */
  lemma RootReads(root: string, rest: string)
    requires IsAllowedRoot(root) && FollowsSegment(rest)
    ensures Run(root + rest, IsIdent) == |root| > 0
    ensures (root + rest)[..|root|] == root && (root + rest)[|root|..] == rest
  {
    RootsAreIdents(root);
    RunStops(root, rest, IsIdent);
  }

  /** Reading a written path gives its segments, whatever its keys quote and however they are quoted. */
  lemma PathReads(p: PathSyntax)
    requires ValidPath(p)
    ensures Path(PathText(p)) == Ok(PathMeaning(p))
  {
    SegmentsFollow(p.segments);
    RootReads(p.root, SegmentsText(p.segments));
    PathIsPermitted(p);
    SegmentsRead(p.segments, [Name(p.root)]);
    hide Run, PathTail, Permitted, IsAllowedRoot, SegmentsText, SegmentsMeaning;
  }

  lemma UpperCase(c: char)
    ensures 'A' <= c <= 'Z' <==> c in "ABCDEFGHIJKLMNOPQRSTUVWXYZ"
  {
  }

  lemma LowerCase(c: char)
    ensures 'a' <= c <= 'z' <==> c in "abcdefghijklmnopqrstuvwxyz"
  {
  }

  lemma DecimalDigits(c: char)
    ensures '0' <= c <= '9' <==> c in "0123456789"
  {
  }

  /** The characters of an identifier, one by one. */
  lemma IdentCharacters(c: char)
    ensures
      IsIdent(c) <==>
      || c in "ABCDEFGHIJKLMNOPQRSTUVWXYZ" || c in "abcdefghijklmnopqrstuvwxyz" || c in "0123456789"
      || c == '_' || c == '$' || c == '-'
  {
    UpperCase(c);
    LowerCase(c);
    DecimalDigits(c);
  }

  predicate IsWholeIdent(s: string) {
    s != [] && forall i :: 0 <= i < |s| ==> IsIdent(s[i])
  }

  lemma OneDotted(name: string)
    requires IsWholeIdent(name)
    ensures
      var x := PathSyntax("trigger", [Dotted(name)]);
      ValidSegments(x.segments) && SegmentsText(x.segments) == "." + name && SegmentsMeaning(x.segments) == [Name(name)]
  {
    var xs := [Dotted(name)];
    assert xs[1..] == [] && SegmentsText(xs) == ("." + name) + [];
  }

  /** What is read of `root.name` before anything is said of either. */
  lemma RootAndName(root: string, name: string)
    requires IsWholeIdent(root) && IsWholeIdent(name)
    ensures
      var input := root + "." + name;
      && Run(input, IsIdent) == |root| && input[..|root|] == root
      && PathTail(input[|root|..], [Name(root)]) == Ok([Name(root), Name(name)])
  {
    OneDotted(name);
    RunStops(root, "." + name, IsIdent);
    SegmentsRead([Dotted(name)], [Name(root)]);
    hide Run, PathTail, SegmentsText, SegmentsMeaning, IsIdent;
    assert root + "." + name == root + ("." + name);
    assert (root + ("." + name))[..|root|] == root && (root + ("." + name))[|root|..] == "." + name;
    assert [Name(root)] + [Name(name)] == [Name(root), Name(name)];
  }

  lemma BothPermitted(root: string, name: string)
    ensures
      var both := [Name(root), Name(name)];
      (forall i :: 0 <= i < |both| ==> Permitted(both[i])) <==> !IsForbidden(root) && !IsForbidden(name)
  {
    var both := [Name(root), Name(name)];
    assert both[0] == Name(root) && both[1] == Name(name);
  }

  /** A root and a name are read, or refused, by what they are called. */
  lemma NamesAreDecided(root: string, name: string)
    requires IsWholeIdent(root) && IsWholeIdent(name)
    ensures
      Path(root + "." + name) ==
      if !(root == "trigger" || root == "steps" || root == "workflow" || root == "execution") then Err(UnknownRoot)
      else if name == "__proto__" || name == "prototype" || name == "constructor" then Err(ForbiddenSegment)
      else Ok([Name(root), Name(name)])
  {
    RootAndName(root, name);
    BothPermitted(root, name);
    hide Run, PathTail, Permitted, IsIdent;
  }

  /** Whatever path is read has one of the four roots and holds none of the three names, however it is spelled. */
  lemma PathsKeepToTheirNames(input: string)
    requires Path(input).Ok?
    ensures
      var path := Path(input).value;
      && path != [] && path[0] in [Name("trigger"), Name("steps"), Name("workflow"), Name("execution")]
      && Name("__proto__") !in path && Name("prototype") !in path && Name("constructor") !in path
  {
    var n := Run(input, IsIdent);
    TailKeepsDone(input[n..], [Name(input[..n])]);
    hide Run, PathTail;
  }

  lemma {:induction false} TailKeepsDone(s: string, done: seq<PathSegment>)
    ensures
      match PathTail(s, done)
      case Err(_) => true
      case Ok(path) => done <= path
    decreases |s|
  {
    if s != [] && Segment(s).Ok? && |done| + 1 <= MAX_PATH_DEPTH {
      var found := Segment(s).value;
      hide Segment;
      TailKeepsDone(s[found.1..], done + [found.0]);
    }
  }

  lemma {:induction false} SegmentsAreCalm(xs: seq<SegmentSyntax>, bad: char)
    requires ValidSegments(xs) && (bad == '|' || bad == '}')
    ensures Calm(SegmentsText(xs), Outside, bad)
    decreases |xs|
  {
    if xs != [] {
      SegmentsAreCalm(xs[1..], bad);
      match xs[0] {
        case Dotted(name) => PlainIsCalm("." + name, bad);
        case Indexed(digits) => PlainIsCalm("[" + digits + "]", bad);
        case Quoted(q, ws) =>
          LiteralIsCalm(q, ws, bad);
          PlainIsCalm("[", bad);
          PlainIsCalm("]", bad);
          CalmConcat("[", Literal(q, ws), Outside, bad);
          CalmConcat("[" + Literal(q, ws), "]", Outside, bad);
      }
      CalmConcat(SegmentText(xs[0]), SegmentsText(xs[1..]), Outside, bad);
    }
  }

  lemma PathIsCalm(p: PathSyntax, bad: char)
    requires ValidPath(p) && (bad == '|' || bad == '}')
    ensures Calm(PathText(p), Outside, bad)
  {
    RootsAreIdents(p.root);
    PlainIsCalm(p.root, bad);
    SegmentsAreCalm(p.segments, bad);
    CalmConcat(p.root, SegmentsText(p.segments), Outside, bad);
  }
}

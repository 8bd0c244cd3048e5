/** HTML escaping and entity decoding (escapeHtml and decodeEntities in mapper/template-mapper.ts). */
module HtmlText {
  import opened Collections
  import opened CodeUnits

  const AMP: Unit := 0x26
  const LT: Unit := 0x3C
  const GT: Unit := 0x3E
  const QUOT: Unit := 0x22
  const SEMICOLON: Unit := 0x3B
  const HASH: Unit := 0x23
  const LOWER_X: Unit := 0x78

  /** What stands for one code unit in escaped text. */
  function EscapeUnit(u: Unit): Text {
    if u == AMP then [AMP, 0x61, 0x6D, 0x70, SEMICOLON]
    else if u == LT then [AMP, 0x6C, 0x74, SEMICOLON]
    else if u == GT then [AMP, 0x67, 0x74, SEMICOLON]
    else if u == QUOT then [AMP, 0x71, 0x75, 0x6F, 0x74, SEMICOLON]
    else [u]
  }

  function EscapeHtml(t: Text): Text {
    if t == [] then [] else EscapeUnit(t[0]) + EscapeHtml(t[1..])
  }

  predicate IsDigit(u: Unit) {
    0x30 <= u <= 0x39
  }

  predicate IsHexDigit(u: Unit) {
    IsDigit(u) || 0x41 <= u <= 0x46 || 0x61 <= u <= 0x66
  }

  predicate IsLetter(u: Unit) {
    0x41 <= u <= 0x5A || 0x61 <= u <= 0x7A
  }

  /** The length of the longest prefix of units that satisfy `p`. */
  function Run(t: Text, p: Unit -> bool): (n: nat)
    ensures n <= |t|
  {
    if t != [] && p(t[0]) then 1 + Run(t[1..], p) else 0
  }

  function HexValue(u: Unit): nat
    requires IsHexDigit(u)
  {
    if IsDigit(u) then u - 0x30 else if u <= 0x46 then u - 0x41 + 10 else u - 0x61 + 10
  }

  function ValueOf(digits: Text, base: nat): nat
    requires forall i :: 0 <= i < |digits| ==> IsHexDigit(digits[i])
  {
    if digits == [] then 0 else ValueOf(digits[..|digits| - 1], base) * base + HexValue(digits[|digits| - 1])
  }

  /** That prefix. */
  function Leading(t: Text, p: Unit -> bool): (r: Text)
    ensures r == t[..Run(t, p)]
    ensures forall i :: 0 <= i < |r| ==> p(r[i])
  {
    if t != [] && p(t[0]) then
      var rest := Leading(t[1..], p);
      assert t[..1 + |rest|] == [t[0]] + rest;
      [t[0]] + rest
    else []
  }

  lemma {:induction false} RunStops(a: Text, b: Text, p: Unit -> bool)
    requires forall i :: 0 <= i < |a| ==> p(a[i])
    requires b != [] && !p(b[0])
    ensures Run(a + b, p) == |a|
  {
    if a == [] {
      assert a + b == b;
    } else {
      assert (a + b)[1..] == a[1..] + b;
      RunStops(a[1..], b, p);
    }
  }

  /** A Unicode scalar value other than zero. */
  predicate ValidCodePoint(n: nat) {
    0 < n <= 0x10FFFF && !(0xD800 <= n <= 0xDFFF)
  }

  function FromCodePoint(n: nat): Text
    requires ValidCodePoint(n)
  {
    if n < 0x1_0000 then [n]
    else [0xD800 + (n - 0x1_0000) / 0x400, 0xDC00 + (n - 0x1_0000) % 0x400]
  }

  const NAMED_ENTITIES: map<string, Unit> := map[
    "amp" := AMP, "lt" := LT, "gt" := GT, "quot" := QUOT, "apos" := 0x27, "nbsp" := 0x20,
    "hellip" := 0x2026, "mdash" := 0x2014, "ndash" := 0x2013, "lsquo" := 0x2018, "rsquo" := 0x2019,
    "ldquo" := 0x201C, "rdquo" := 0x201D, "laquo" := 0xAB, "raquo" := 0xBB, "bull" := 0x2022, "middot" := 0xB7,
    "copy" := 0xA9, "reg" := 0xAE, "trade" := 0x2122, "euro" := 0x20AC, "deg" := 0xB0, "times" := 0xD7]

  function LettersOf(t: Text): (s: string)
    requires forall i :: 0 <= i < |t| ==> IsLetter(t[i])
    ensures |s| == |t|
  {
    seq(|t|, i requires 0 <= i < |t| && IsLetter(t[i]) => t[i] as char)
  }

  /** The text goes on with `name` and a semicolon. */
  predicate Closes(t: Text, name: Text, least: nat, most: nat) {
    least <= |name| <= most && |name| < |t| && t[|name|] == SEMICOLON
  }

  function HexAt(t: Text): Option<(nat, Text)>
    requires |t| >= 3
  {
    var digits := Leading(t[3..], IsHexDigit);
    if Closes(t[3..], digits, 1, 6) then Some((4 + |digits|, Numeric(ValueOf(digits, 16), t[..4 + |digits|]))) else None
  }

  function DecimalAt(t: Text): Option<(nat, Text)>
    requires |t| >= 2
  {
    var digits := Leading(t[2..], IsDigit);
    if Closes(t[2..], digits, 1, 7) then Some((3 + |digits|, Numeric(ValueOf(digits, 10), t[..3 + |digits|]))) else None
  }

  function NameAt(t: Text): Option<(nat, Text)>
    requires |t| >= 1
  {
    var name := Leading(t[1..], IsLetter);
    if Closes(t[1..], name, 2, 8) then Some((2 + |name|, Named(LettersOf(name), t[..2 + |name|]))) else None
  }

  /** The table is a plain object, and these are its inherited properties of two to eight letters. */
  predicate Inherited(name: string) {
    name == "toString" || name == "valueOf"
  }

  const FUNCTION: Text := [0x66, 0x75, 0x6E, 0x63, 0x74, 0x69, 0x6F, 0x6E, 0x20]
  const NATIVE_CODE: Text :=
    [0x28, 0x29, 0x20, 0x7B, 0x20, 0x5B, 0x6E, 0x61, 0x74, 0x69, 0x76, 0x65, 0x20, 0x63, 0x6F, 0x64, 0x65, 0x5D, 0x20,
     0x7D]

  /** A built-in function as text. */
  function NativeFunction(name: Text): Text {
    FUNCTION + name + NATIVE_CODE
  }

  /** What a named entity becomes: `name` is what stands between its ampersand and its semicolon. */
  function Named(name: string, entity: Text): Text
    requires |entity| >= 2
  {
    if name in NAMED_ENTITIES then [NAMED_ENTITIES[name]]
    else if Inherited(name) then NativeFunction(entity[1..|entity| - 1])
    else entity
  }

  /** An entity at the start of a text: how long it is and what it becomes, itself if it names no character. */
  function EntityAt(t: Text): (e: Option<(nat, Text)>)
    requires t != []
    ensures e.Some? ==> 2 < e.value.0 <= |t| && t[0] == AMP
  {
    if t[0] != AMP then None
    else if |t| > 2 && t[1] == HASH && t[2] == LOWER_X then HexAt(t)
    else if |t| > 1 && t[1] == HASH then DecimalAt(t)
    else NameAt(t)
  }

  function Numeric(value: nat, entity: Text): Text {
    if ValidCodePoint(value) then FromCodePoint(value) else entity
  }

  /** Entities are replaced from left to right; what is not an entity stays. */
  function DecodeEntities(t: Text): Text {
    if t == [] then []
    else
      match EntityAt(t)
      case Some(e) => e.1 + DecodeEntities(t[e.0..])
      case None => [t[0]] + DecodeEntities(t[1..])
  }

  /** ASCII letters. */
  predicate Letters(t: Text) {
    forall i :: 0 <= i < |t| ==> 'A' as int <= t[i] <= 'Z' as int || 'a' as int <= t[i] <= 'z' as int
  }

  lemma LeadingStops(a: Text, b: Text, p: Unit -> bool)
    requires forall i :: 0 <= i < |a| ==> p(a[i])
    requires b != [] && !p(b[0])
    ensures Leading(a + b, p) == a
  {
    RunStops(a, b, p);
  }

  /** A named entity in front of any text is decoded on its own. */
  lemma NamedEntityDecodes(name: Text, rest: Text)
    requires 2 <= |name| <= 8 && Letters(name)
    ensures
      var entity := [AMP] + name + [SEMICOLON];
      DecodeEntities(entity + rest) == Named(LettersOf(name), entity) + DecodeEntities(rest)
  {
    var entity := [AMP] + name + [SEMICOLON];
    var t := entity + rest;
    assert t[1..] == name + ([SEMICOLON] + rest);
    LeadingStops(name, [SEMICOLON] + rest, IsLetter);
    hide Leading, NAMED_ENTITIES, Named;
    assert t[1] == name[0];
    assert t[..2 + |name|] == entity && t[2 + |name|..] == rest;
    assert EntityAt(t) == Some((2 + |name|, Named(LettersOf(name), entity)));
  }

  /**
   * A name that the table does not have stays as it is if and only if the table's prototype does not have it either.
   */
  lemma UnknownNameStaysIff(name: Text, rest: Text)
    requires 2 <= |name| <= 8 && Letters(name) && LettersOf(name) !in NAMED_ENTITIES
    ensures
      var entity := [AMP] + name + [SEMICOLON];
      DecodeEntities(entity + rest) == entity + DecodeEntities(rest) <==>
      LettersOf(name) != "toString" && LettersOf(name) != "valueOf"
  {
    var entity := [AMP] + name + [SEMICOLON];
    NamedEntityDecodes(name, rest);
    hide DecodeEntities, LettersOf, Inherited, NAMED_ENTITIES;
    if Inherited(LettersOf(name)) {
      assert (NativeFunction(entity[1..|entity| - 1]) + DecodeEntities(rest))[0] == FUNCTION[0];
    }
  }

  /** The entity `&toString;` becomes `function toString() { [native code] }`. */
  lemma ToStringIsDecoded()
    ensures
      var name: Text := [0x74, 0x6F, 0x53, 0x74, 0x72, 0x69, 0x6E, 0x67];
      DecodeEntities([AMP] + name + [SEMICOLON]) == FUNCTION + name + NATIVE_CODE
  {
    var name: Text := [0x74, 0x6F, 0x53, 0x74, 0x72, 0x69, 0x6E, 0x67];
    var entity := [AMP] + name + [SEMICOLON];
    assert LettersOf(name) == "toString";
    NamedEntityDecodes(name, []);
    assert entity + [] == entity && entity[1..|entity| - 1] == name;
  }

  /** A decimal reference in front of any text becomes its character, or stays if there is none. */
  lemma DecimalReferenceDecodes(digits: Text, rest: Text)
    requires 1 <= |digits| <= 7 && forall i :: 0 <= i < |digits| ==> IsDigit(digits[i])
    ensures
      var entity := [AMP, HASH] + digits + [SEMICOLON];
      DecodeEntities(entity + rest) == Numeric(ValueOf(digits, 10), entity) + DecodeEntities(rest)
  {
    var entity := [AMP, HASH] + digits + [SEMICOLON];
    var t := entity + rest;
    assert t[2..] == digits + ([SEMICOLON] + rest);
    LeadingStops(digits, [SEMICOLON] + rest, IsDigit);
    hide Leading, ValueOf, Numeric;
    assert t[2] == digits[0];
    assert t[..3 + |digits|] == entity && t[3 + |digits|..] == rest;
    assert EntityAt(t) == Some((3 + |digits|, Numeric(ValueOf(digits, 10), entity)));
  }

  lemma HexReferenceDecodes(digits: Text, rest: Text)
    requires 1 <= |digits| <= 6 && forall i :: 0 <= i < |digits| ==> IsHexDigit(digits[i])
    ensures
      var entity := [AMP, HASH, LOWER_X] + digits + [SEMICOLON];
      DecodeEntities(entity + rest) == Numeric(ValueOf(digits, 16), entity) + DecodeEntities(rest)
  {
    var entity := [AMP, HASH, LOWER_X] + digits + [SEMICOLON];
    var t := entity + rest;
    assert t[3..] == digits + ([SEMICOLON] + rest);
    LeadingStops(digits, [SEMICOLON] + rest, IsHexDigit);
    hide Leading, ValueOf, Numeric;
    assert t[..4 + |digits|] == entity && t[4 + |digits|..] == rest;
    assert EntityAt(t) == Some((4 + |digits|, Numeric(ValueOf(digits, 16), entity)));
  }

  // ---- which references there are ----

  function DigitOf(d: nat, upper: bool): Unit
    requires d < 16
  {
    if d < 10 then '0' as int + d else (if upper then 'A' as int else 'a' as int) + (d - 10)
  }

  /** A number in base 10 or 16, hexadecimal digits in either case. */
  function Numeral(n: nat, base: nat, upper: bool): Text
    requires base == 10 || base == 16
  {
    if n < base then [DigitOf(n, upper)] else Numeral(n / base, base, upper) + [DigitOf(n % base, upper)]
  }

  function Power(base: nat, k: nat): nat {
    if k == 0 then 1 else base * Power(base, k - 1)
  }

  lemma {:induction false} NumeralIsRead(n: nat, base: nat, upper: bool, k: nat)
    requires (base == 10 || base == 16) && k >= 1 && n < Power(base, k)
    ensures forall i :: 0 <= i < |Numeral(n, base, upper)| ==>
              IsHexDigit(Numeral(n, base, upper)[i]) && (base == 10 ==> IsDigit(Numeral(n, base, upper)[i]))
    ensures ValueOf(Numeral(n, base, upper), base) == n && 1 <= |Numeral(n, base, upper)| <= k
  {
    var t := Numeral(n, base, upper);
    if n < base {
      assert t[..0] == [];
    } else {
      assert k > 1 && n / base < Power(base, k - 1);
      NumeralIsRead(n / base, base, upper, k - 1);
      assert t[..|t| - 1] == Numeral(n / base, base, upper);
    }
  }

  /** The UTF-16 form of a code point. */
  predicate Encodes(t: Text, n: nat) {
    if n < 0x1_0000 then t == [n]
    else
      && |t| == 2 && IsHigh(t[0]) && IsLow(t[1])
      && (t[0] as int - 0xD800) * 0x400 + (t[1] as int - 0xDC00) + 0x1_0000 == n
  }

  /** Any reference of the right length, in decimal or in hexadecimal of either case, is the character of its number. */
  lemma EveryCharacterCanBeReferred(n: nat, hex: bool, upper: bool, rest: Text) returns (t: Text)
    requires n < if hex then 0x100_0000 else 1000_0000
    ensures
      var entity := (if hex then [AMP, HASH, LOWER_X] else [AMP, HASH]) +
                    Numeral(n, if hex then 16 else 10, upper) + [SEMICOLON];
      && DecodeEntities(entity + rest) == t + DecodeEntities(rest)
      && if n == 0 || n > 0x10FFFF || 0xD800 <= n < 0xE000 then t == entity else Encodes(t, n)
  {
    var base, k := if hex then 16 else 10, if hex then 6 else 7;
    assert Power(16, 6) == 0x100_0000 && Power(10, 7) == 1000_0000 by {
      Powers();
    }
    NumeralIsRead(n, base, upper, k);
    var digits := Numeral(n, base, upper);
    hide Numeral, ValueOf, DecodeEntities, Power;
    if hex {
      HexReferenceDecodes(digits, rest);
      t := Numeric(n, [AMP, HASH, LOWER_X] + digits + [SEMICOLON]);
    } else {
      DecimalReferenceDecodes(digits, rest);
      t := Numeric(n, [AMP, HASH] + digits + [SEMICOLON]);
    }
  }

  lemma Powers()
    ensures Power(16, 6) == 0x100_0000 && Power(10, 7) == 1000_0000
  {
    assert Power(16, 1) == 16 && Power(16, 2) == 0x100 && Power(16, 3) == 0x1000 && Power(16, 4) == 0x1_0000;
    assert Power(10, 1) == 10 && Power(10, 2) == 100 && Power(10, 3) == 1000 && Power(10, 4) == 1_0000;
    assert Power(10, 5) == 10_0000 && Power(10, 6) == 100_0000;
  }

  /** The name or number between an ampersand and a semicolon is too short or too long to be one. */
  predicate WrongLength(body: Text) {
    if |body| >= 2 && body[0] == HASH && body[1] == LOWER_X then
      (forall i :: 2 <= i < |body| ==> IsHexDigit(body[i])) && !(3 <= |body| <= 8)
    else if |body| >= 1 && body[0] == HASH then
      (forall i :: 1 <= i < |body| ==> IsDigit(body[i])) && !(2 <= |body| <= 8)
    else Letters(body) && !(2 <= |body| <= 8)
  }

  lemma AmpersandStays(t: Text)
    requires t != [] && t[0] == AMP && EntityAt(t) == None
    ensures DecodeEntities(t) == [AMP] + DecodeEntities(t[1..])
  {
  }

  lemma HexStays(digits: Text, rest: Text)
    requires (forall i :: 0 <= i < |digits| ==> IsHexDigit(digits[i])) && !(1 <= |digits| <= 6)
    ensures EntityAt([AMP, HASH, LOWER_X] + digits + ([SEMICOLON] + rest)) == None
  {
    LeadingStops(digits, [SEMICOLON] + rest, IsHexDigit);
    hide Leading;
    assert ([AMP, HASH, LOWER_X] + digits + ([SEMICOLON] + rest))[3..] == digits + ([SEMICOLON] + rest);
  }

  lemma DecimalStays(digits: Text, rest: Text)
    requires (forall i :: 0 <= i < |digits| ==> IsDigit(digits[i])) && !(1 <= |digits| <= 7)
    ensures EntityAt([AMP, HASH] + digits + ([SEMICOLON] + rest)) == None
  {
    LeadingStops(digits, [SEMICOLON] + rest, IsDigit);
    hide Leading;
    var t := [AMP, HASH] + digits + ([SEMICOLON] + rest);
    assert t[2..] == digits + ([SEMICOLON] + rest);
    assert t[2] == if digits == [] then SEMICOLON else digits[0];
  }

  lemma NameStays(name: Text, rest: Text)
    requires Letters(name) && !(2 <= |name| <= 8)
    ensures EntityAt([AMP] + name + ([SEMICOLON] + rest)) == None
  {
    LeadingStops(name, [SEMICOLON] + rest, IsLetter);
    hide Leading;
    var t := [AMP] + name + ([SEMICOLON] + rest);
    assert t[1..] == name + ([SEMICOLON] + rest);
    assert t[1] == if name == [] then SEMICOLON else name[0];
  }

  lemma WrongLengthIsNone(body: Text, rest: Text)
    requires WrongLength(body)
    ensures EntityAt([AMP] + body + ([SEMICOLON] + rest)) == None
  {
    hide EntityAt;
    if |body| >= 2 && body[0] == HASH && body[1] == LOWER_X {
      HexStays(body[2..], rest);
      assert body == [HASH, LOWER_X] + body[2..];
      assert [AMP] + body == [AMP, HASH, LOWER_X] + body[2..];
    } else if |body| >= 1 && body[0] == HASH {
      DecimalStays(body[1..], rest);
      assert body == [HASH] + body[1..];
      assert [AMP] + body == [AMP, HASH] + body[1..];
    } else {
      NameStays(body, rest);
    }
  }

  /** Such an ampersand stays. */
  lemma WrongLengthStays(body: Text, rest: Text)
    requires WrongLength(body)
    ensures DecodeEntities([AMP] + body + [SEMICOLON] + rest) == [AMP] + DecodeEntities(body + [SEMICOLON] + rest)
  {
    WrongLengthIsNone(body, rest);
    hide EntityAt, DecodeEntities, WrongLength;
    var t := [AMP] + body + ([SEMICOLON] + rest);
    assert t == [AMP] + body + [SEMICOLON] + rest && t[1..] == body + [SEMICOLON] + rest;
    AmpersandStays(t);
  }

  lemma EmittedNames()
    ensures LettersOf([0x61, 0x6D, 0x70]) == "amp" && LettersOf([0x6C, 0x74]) == "lt"
    ensures LettersOf([0x67, 0x74]) == "gt" && LettersOf([0x71, 0x75, 0x6F, 0x74]) == "quot"
  {
  }

  lemma PlainUnitDecodes(u: Unit, rest: Text)
    requires u != AMP
    ensures DecodeEntities([u] + rest) == [u] + DecodeEntities(rest)
  {
    assert ([u] + rest)[1..] == rest;
  }

  lemma EmittedEntityDecodes(u: Unit, name: Text, rest: Text)
    requires 2 <= |name| <= 8 && Letters(name)
    requires EscapeUnit(u) == [AMP] + name + [SEMICOLON] && Named(LettersOf(name), EscapeUnit(u)) == [u]
    ensures DecodeEntities(EscapeUnit(u) + rest) == [u] + DecodeEntities(rest)
  {
    NamedEntityDecodes(name, rest);
  }

  lemma EscapedUnitDecodes(u: Unit, rest: Text)
    ensures DecodeEntities(EscapeUnit(u) + rest) == [u] + DecodeEntities(rest)
  {
    hide DecodeEntities;
    EmittedNames();
    if u == AMP {
      EmittedEntityDecodes(u, [0x61, 0x6D, 0x70], rest);
    } else if u == LT {
      EmittedEntityDecodes(u, [0x6C, 0x74], rest);
    } else if u == GT {
      EmittedEntityDecodes(u, [0x67, 0x74], rest);
    } else if u == QUOT {
      EmittedEntityDecodes(u, [0x71, 0x75, 0x6F, 0x74], rest);
    } else {
      PlainUnitDecodes(u, rest);
    }
  }

  /** Decoding undoes escaping, for every text. */
  lemma {:induction false} DecodeUndoesEscape(t: Text)
    ensures DecodeEntities(EscapeHtml(t)) == t
  {
    if t != [] {
      DecodeUndoesEscape(t[1..]);
      EscapedUnitDecodes(t[0], EscapeHtml(t[1..]));
    }
  }

  /** One of the four entities that escaping emits. */
  predicate StartsEmittedEntity(t: Text) {
    EscapeUnit(AMP) <= t || EscapeUnit(LT) <= t || EscapeUnit(GT) <= t || EscapeUnit(QUOT) <= t
  }

  lemma {:induction false} EscapedTextIsSafe(t: Text)
    ensures forall i :: 0 <= i < |EscapeHtml(t)| ==> EscapeHtml(t)[i] !in {LT, GT, QUOT}
    ensures forall i :: 0 <= i < |EscapeHtml(t)| && EscapeHtml(t)[i] == AMP ==> StartsEmittedEntity(EscapeHtml(t)[i..])
  {
    if t != [] {
      EscapedTextIsSafe(t[1..]);
      var first, rest, all := EscapeUnit(t[0]), EscapeHtml(t[1..]), EscapeHtml(t);
      forall i | 0 <= i < |all|
        ensures all[i] !in {LT, GT, QUOT} && (all[i] == AMP ==> StartsEmittedEntity(all[i..]))
      {
        if i < |first| {
          assert all[i] == first[i];
          if all[i] == AMP {
            assert i == 0 && first <= all[0..];
          }
        } else {
          assert all[i] == rest[i - |first|] && all[i..] == rest[i - |first|..];
        }
      }
    }
  }
}

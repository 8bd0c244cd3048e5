/** Templates of UTF-16 code units: one char stands for one unit, and surrogates have chars that nothing else uses. */
module TemplateUnits {
  import Units = CodeUnits
  import opened Collections
  import opened QuoteScan
  import opened TemplatePath
  import opened TemplateExpression
  import opened Template
  import opened TemplatePrinting

  /** Chars from U+100000 on stand for surrogates, paired or not; all others stand for themselves. */
  function CharOf(u: Units.Unit): char {
    if Units.IsHigh(u) || Units.IsLow(u) then (0x10_0000 + (u - 0xD800)) as char else u as char
  }

  function Chars(t: Units.Text): (s: string)
    ensures |s| == |t| && forall i :: 0 <= i < |t| ==> s[i] == CharOf(t[i])
  {
    seq(|t|, i requires 0 <= i < |t| => CharOf(t[i]))
  }

  /** Different texts are different templates. */
  lemma UnitsAreTold(a: Units.Text, b: Units.Text)
    ensures Chars(a) == Chars(b) <==> a == b
  {
    if Chars(a) == Chars(b) {
      forall i | 0 <= i < |a|
        ensures a[i] == b[i]
      {
        assert CharOf(a[i]) == Chars(a)[i] == Chars(b)[i] == CharOf(b[i]);
      }
    }
  }

  /** A surrogate is none of the characters the compiler looks for: they all lie below it. */
  lemma SurrogatesAreOrdinary(u: Units.Unit)
    requires Units.IsHigh(u) || Units.IsLow(u)
    ensures
      var c := CharOf(u);
      && c > '\U{FFFF}'
      && !IsQuote(c) && !IsDigit(c) && !IsIdent(c) && !IsWord(c) && !IsMark(c) && !IsSpace(c)
  {
  }

  /** Any string of code units, unpaired surrogates included, can be a template's literal text. */
  lemma AnyUnitsCanBeText(table: FilterTable, t: Units.Text)
    requires t != []
    ensures
      var parts := [Text(Chars(t))];
      && Legal(table, parts)
      && (|Printed(table, parts)| <= MAX_TEMPLATE_LENGTH ==> Compile(table, Printed(table, parts)) == Ok(parts))
  {
    var parts := [Text(Chars(t))];
    assert Legal(table, parts);
    PrintedPartsCompileBack(table, parts);
    hide Compile, Printed, Legal;
    if |Printed(table, parts)| <= MAX_TEMPLATE_LENGTH {
      var again := Compile(table, Printed(table, parts)).value;
      assert SamePart(again[0], parts[0]);
      assert again == [again[0]];
    }
  }
}

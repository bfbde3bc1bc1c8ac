/** The converter's pure helpers: `_format_date`, `_extract_year_from_date` and
    `_extract_tags_from_highlights`, with Python's `int()` as the month parser. */
module ConverterRules {
  import opened PyText
  import opened JsonData

  // ---------------------------------------------------------------- int()

  predicate IsDigitGroups(t: string) {
    && t != [] && IsDigit(t[0]) && IsDigit(t[|t| - 1])
    && forall i :: 0 <= i < |t| ==> IsDigit(t[i]) || (t[i] == '_' && i + 1 < |t| && IsDigit(t[i + 1]))
  }

  /** The value of a digit string, underscores ignored. */
  function DigitsValue(t: string): nat
    decreases |t|
  {
    if t == [] then 0
    else if t[|t| - 1] == '_' then DigitsValue(t[..|t| - 1])
    else if IsDigit(t[|t| - 1]) then 10 * DigitsValue(t[..|t| - 1]) + (t[|t| - 1] as int - '0' as int)
    else DigitsValue(t[..|t| - 1])
  }

  /** `int(s)` for a string: surrounding whitespace, an optional sign, and decimal digits with
      single underscores between them; `None` where Python raises `ValueError`. */
  function PyInt(s: string): (r: Option<int>)
    ensures r.Some? ==> exists t :: (t == Strip(s) || (|Strip(s)| > 0 && t == Strip(s)[1..])) && IsDigitGroups(t)
  {
    var t := Strip(s);
    if t != [] && (t[0] == '+' || t[0] == '-') then
      if IsDigitGroups(t[1..]) then
        Some(if t[0] == '-' then -(DigitsValue(t[1..]) as int) else DigitsValue(t[1..]) as int)
      else None
    else if IsDigitGroups(t) then Some(DigitsValue(t) as int)
    else None
  }

  /** Two ASCII digits read as a number. */
  lemma {:induction false} PyIntTwoDigits(a: char, b: char)
    requires IsDigit(a) && IsDigit(b)
    ensures PyInt([a, b]) == Some(10 * (a as int - '0' as int) + (b as int - '0' as int))
  {
    assert !IsSpace(a) && !IsSpace(b);
    StripUnspaced([a, b]);
    assert IsDigitGroups([a, b]);
    assert [a, b][..1] == [a];
    assert [a][..0] == [];
    assert DigitsValue([a]) == a as int - '0' as int;
  }

  /** A text with a minus sign after its first character is no integer. */
  lemma {:induction false} PyIntNoMinusNonNegative(s: string)
    requires '-' !in s
    ensures PyInt(s).Some? ==> PyInt(s).value >= 0
  {
    var t := Strip(s);
    if t != [] {
      assert t[0] in s;
    }
  }

  // ---------------------------------------------------------------- _format_date

  const MonthAbbr: seq<string> := ["Jan", "Feb", "Mar", "Apr", "May", "Jun", "Jul", "Aug", "Sep", "Oct", "Nov", "Dec"]

  /** `MonthAbbr[i]` with Python's negative indexing; `None` where Python raises `IndexError`. */
  function PyIndex(xs: seq<string>, i: int): (r: Option<string>)
    ensures r.Some? <==> -|xs| <= i < |xs|
    ensures r.Some? ==> r == Some(xs[i % |xs|])
  {
    if 0 <= i < |xs| then Some(xs[i]) else if -|xs| <= i < 0 then Some(xs[i + |xs|]) else None
  }

  /** `months[month - 1]`: months 1 to 12 name themselves, 0 to -11 wrap round to the end of the
      year (`0` is December), anything else raises. */
  lemma {:induction false} MonthIndexLaw(m: int)
    ensures PyIndex(MonthAbbr, m - 1).Some? <==> -11 <= m <= 12
    ensures 1 <= m <= 12 ==> PyIndex(MonthAbbr, m - 1) == Some(MonthAbbr[m - 1])
    ensures -11 <= m <= 0 ==> PyIndex(MonthAbbr, m - 1) == Some(MonthAbbr[m + 11])
    ensures m == 0 ==> PyIndex(MonthAbbr, m - 1) == Some("Dec")
  {
    assert |MonthAbbr| == 12;
  }

  /** `_format_date(date_str)` for a string: `""` for the empty text, `present` for any casing of
      it, `YYYY Mon.` for text with one dash and a month `int()` accepts and the list can index,
      the text unchanged otherwise (no dash, or the exception path). */
  function FormatDateText(s: string): string {
    if s == [] then []
    else if Lower(s) == "present" then "present"
    else if '-' in s then FormatDashed(s, SplitOn(s, '-'))
    else s
  }

  /** The `try` block of `_format_date`: unpack into year and month, read the month, index the
      abbreviations; any failure returns the text as it was. */
  function FormatDashed(s: string, parts: seq<string>): string {
    if |parts| != 2 then s
    else
      match PyInt(parts[1])
      case None => s
      case Some(m) =>
        match PyIndex(MonthAbbr, m - 1)
        case None => s
        case Some(abbr) => parts[0] + " " + abbr + "."
  }

  /** `_format_date(value)`: falsy values give `""`. */
  function FormatDate(v: Json): string
    requires !Truthy(v) || v.Str?
  {
    if !Truthy(v) then [] else FormatDateText(v.s)
  }

  /** `""` is the only text that formats to `""`. */
  lemma {:induction false} FormatDateEmpty(s: string)
    ensures FormatDateText(s) == [] <==> s == []
  {
    if s != [] && '-' in s && Lower(s) != "present" {
      var parts := SplitOn(s, '-');
      if |parts| == 2 && PyInt(parts[1]).Some? && PyIndex(MonthAbbr, PyInt(parts[1]).value - 1).Some? {
        assert |FormatDateText(s)| >= 2;
      }
    }
  }

  lemma {:induction false} FormatDatePresent(s: string)
    requires Lower(s) == "present"
    ensures FormatDateText(s) == "present"
  {
  }

  /** Text without a dash (other than `present`) is kept as it is: a bare year, say. */
  lemma {:induction false} FormatDateNoDash(s: string)
    requires '-' !in s && Lower(s) != "present"
    ensures FormatDateText(s) == s
  {
  }

  /** Lowering keeps the dash, and `present` has none. */
  lemma {:induction false} DashNotPresent(s: string)
    requires '-' in s
    ensures Lower(s) != "present"
  {
    var k :| 0 <= k < |s| && s[k] == '-';
    assert Lower(s)[k] == '-';
    assert '-' !in "present";
  }

  /** `year-month` with one dash formats by the month alone. */
  lemma {:induction false} FormatDateDash(year: string, month: string)
    requires '-' !in year && '-' !in month
    ensures var s := year + "-" + month;
      s != [] && '-' in s && Lower(s) != "present" && SplitOn(s, '-') == [year, month]
  {
    var s := year + "-" + month;
    SplitOnOne(year, month, '-');
    assert s[|year|] == '-';
    DashNotPresent(s);
  }

  /** `YYYY-MM` with a month `int()` reads as 1..12 becomes `YYYY Mon.`. */
  lemma {:induction false} FormatDateMonth(year: string, month: string)
    requires '-' !in year && '-' !in month
    requires PyInt(month).Some? && 1 <= PyInt(month).value <= 12
    ensures FormatDateText(year + "-" + month) == year + " " + MonthAbbr[PyInt(month).value - 1] + "."
  {
    var s := year + "-" + month;
    FormatDateDash(year, month);
    assert FormatDateText(s) == FormatDashed(s, [year, month]);
    DashedMonth(s, year, month);
  }

  lemma {:induction false} DashedMonth(s: string, year: string, month: string)
    requires PyInt(month).Some? && 1 <= PyInt(month).value <= 12
    ensures FormatDashed(s, [year, month]) == year + " " + MonthAbbr[PyInt(month).value - 1] + "."
  {
    var m := PyInt(month).value;
    assert [year, month][0] == year && [year, month][1] == month;
    assert PyIndex(MonthAbbr, m - 1) == Some(MonthAbbr[m - 1]);
  }

  /** Month 0 reads index -1, the last abbreviation. */
  lemma {:induction false} FormatDateMonthZero(year: string, month: string)
    requires '-' !in year && '-' !in month
    requires PyInt(month) == Some(0)
    ensures FormatDateText(year + "-" + month) == year + " Dec."
  {
    var s := year + "-" + month;
    FormatDateDash(year, month);
    assert FormatDateText(s) == FormatDashed(s, [year, month]);
    DashedMonthZero(s, year, month);
  }

  lemma {:induction false} DashedMonthZero(s: string, year: string, month: string)
    requires PyInt(month) == Some(0)
    ensures FormatDashed(s, [year, month]) == year + " Dec."
  {
    assert PyIndex(MonthAbbr, -1) == Some(MonthAbbr[11]);
    assert MonthAbbr[11] == "Dec";
    assert year + " " + "Dec" + "." == year + " Dec.";
  }

  /** The exception path: a dash count other than one, a month `int()` rejects, or a month
      above 12 leaves the text unchanged. */
  lemma {:induction false} FormatDateErrors(s: string)
    requires '-' in s
    requires var parts := SplitOn(s, '-');
      |parts| != 2 || PyInt(parts[1]).None? || PyInt(parts[1]).value > 12
    ensures FormatDateText(s) == s
  {
    DashNotPresent(s);
    var parts := SplitOn(s, '-');
    if |parts| == 2 && PyInt(parts[1]).Some? {
      PyIntNoMinusNonNegative(parts[1]);
    }
  }

  /** No month reaches the negative-index path below `Dec`: the month text holds no dash, so
      `int()` never sees a minus sign. */
  lemma {:induction false} FormatDateMonthRange(s: string)
    requires |SplitOn(s, '-')| == 2 && PyInt(SplitOn(s, '-')[1]).Some?
    ensures PyInt(SplitOn(s, '-')[1]).value >= 0
    ensures CountChar(s, '-') == 1
  {
    SplitOnCount(s, '-');
    PyIntNoMinusNonNegative(SplitOn(s, '-')[1]);
  }

  /** `YYYY-MM` with a two-digit month from `01` to `12` becomes `YYYY Mon.` (`2023-05` gives
      `2023 May.`). */
  lemma {:induction false} FormatDateTwoDigitMonth(year: string, a: char, b: char)
    requires '-' !in year && IsDigit(a) && IsDigit(b)
    requires 1 <= 10 * (a as int - '0' as int) + (b as int - '0' as int) <= 12
    ensures FormatDateText(year + "-" + [a, b]) == year + " " + MonthAbbr[10 * (a as int - '0' as int) + (b as int - '0' as int) - 1] + "."
  {
    PyIntTwoDigits(a, b);
    FormatDateMonth(year, [a, b]);
  }

  // ---------------------------------------------------------------- _extract_year_from_date

  /** `\b(19|20)\d{2}\b` matches at `i`. */
  predicate YearAt(s: string, i: nat) {
    && i + 4 <= |s|
    && ((s[i] == '1' && s[i + 1] == '9') || (s[i] == '2' && s[i + 1] == '0'))
    && IsDigit(s[i + 2]) && IsDigit(s[i + 3])
    && (i == 0 || !IsWordChar(s[i - 1]))
    && (i + 4 == |s| || !IsWordChar(s[i + 4]))
  }

  /** `re.search`: the leftmost match at or after `from`. */
  function FindYear(s: string, from: nat): (r: Option<nat>)
    ensures r.Some? ==> from <= r.value && YearAt(s, r.value) && forall i: nat :: from <= i < r.value ==> !YearAt(s, i)
    ensures r.None? ==> forall i: nat :: from <= i ==> !YearAt(s, i)
    decreases |s| - from
  {
    if from + 4 > |s| then None
    else if YearAt(s, from) then Some(from)
    else FindYear(s, from + 1)
  }

  lemma {:induction false} DashAfterFirstPiece(parts: seq<string>)
    requires |parts| >= 2
    ensures var s := Join("-", parts); |parts[0]| < |s| && s[|parts[0]|] == '-' && s[..|parts[0]|] == parts[0]
  {
    assert Join("-", parts) == parts[0] + "-" + Join("-", parts[1..]);
  }

  /** `_extract_year_from_date(date_str)` for a string. */
  function ExtractYearText(s: string): (r: string) {
    if s == [] then []
    else if Lower(s) == "present" then "present"
    else if '-' in s then SplitOn(s, '-')[0]
    else
      match FindYear(s, 0)
      case Some(i) => s[i..i + 4]
      case None => s
  }

  function ExtractYear(v: Json): string
    requires !Truthy(v) || v.Str?
  {
    if !Truthy(v) then [] else ExtractYearText(v.s)
  }

  lemma {:induction false} ExtractYearEmpty()
    ensures ExtractYearText([]) == []
  {
  }

  lemma {:induction false} ExtractYearPresent(s: string)
    requires Lower(s) == "present"
    ensures ExtractYearText(s) == "present"
  {
  }

  /** With a dash, the text before the first one. */
  lemma {:induction false} ExtractYearDash(s: string)
    requires '-' in s
    ensures exists k :: 0 <= k < |s| && s[k] == '-' && '-' !in s[..k] && ExtractYearText(s) == s[..k]
  {
    DashNotPresent(s);
    SplitOnJoin(s, '-');
    SplitOnCount(s, '-');
    var parts := SplitOn(s, '-');
    assert CountChar(s, '-') >= 1 by { CountCharIn(s, '-'); }
    DashAfterFirstPiece(parts);
    var k := |parts[0]|;
    assert s[k] == '-' && s[..k] == parts[0];
  }

  lemma {:induction false} CountCharIn(s: string, c: char)
    requires c in s
    ensures CountChar(s, c) >= 1
    decreases |s|
  {
    if s[0] != c {
      assert c in s[1..];
      CountCharIn(s[1..], c);
    }
  }

  /** Without a dash, the leftmost standalone 19xx/20xx year. */
  lemma {:induction false} ExtractYearFound(s: string, i: nat)
    requires '-' !in s && Lower(s) != "present" && YearAt(s, i)
    requires forall j: nat :: j < i ==> !YearAt(s, j)
    ensures ExtractYearText(s) == s[i..i + 4]
  {
    var r := FindYear(s, 0);
    assert r.Some?;
    if r.value < i {
    } else if r.value > i {
    }
  }

  /** Without a dash or a year, the text itself. */
  lemma {:induction false} ExtractYearNone(s: string)
    requires '-' !in s && Lower(s) != "present"
    requires forall j: nat :: !YearAt(s, j)
    ensures ExtractYearText(s) == s
  {
  }

  /** `YYYY-MM` gives `YYYY` (`2019-09` gives `2019`). */
  lemma {:induction false} ExtractYearYearMonth(year: string, month: string)
    requires '-' !in year && '-' !in month
    ensures ExtractYearText(year + "-" + month) == year
  {
    FormatDateDash(year, month);
  }

  // ---------------------------------------------------------------- _extract_tags_from_highlights

  /** The run of letters at the start of `s`. */
  function LetterRun(s: string): (k: nat)
    ensures k <= |s|
    ensures forall i :: 0 <= i < k ==> IsLetter(s[i])
    ensures k < |s| ==> !IsLetter(s[k])
  {
    if s != [] && IsLetter(s[0]) then 1 + LetterRun(s[1..]) else 0
  }

  /** `\b([A-Z][a-zA-Z]+)\b` at `p`: the end of the word. The second alternative
      `\b([A-Z][A-Z]+)\b` can only match where this one does, so it never contributes. */
  function CapWordAt(t: string, p: nat): (r: Option<nat>)
    requires p < |t|
    ensures r.Some? ==> (p + 2 <= r.value <= |t| && IsUpper(t[p])
                        && forall i :: p < i < r.value ==> IsLetter(t[i]))
  {
    if IsUpper(t[p]) && (p == 0 || !IsWordChar(t[p - 1])) then
      var e := p + 1 + LetterRun(t[p + 1..]);
      if e > p + 1 && (e == |t| || !IsWordChar(t[e])) then Some(e) else None
    else None
  }

  /** `"([^"]+)"` at `p`: the index of the closing quote. */
  function QuotedAt(t: string, p: nat): (r: Option<nat>)
    requires p < |t|
    ensures r.Some? ==> (p + 1 < r.value < |t| && t[p] == '"' && t[r.value] == '"'
                        && forall i :: p < i < r.value ==> t[i] != '"')
  {
    if t[p] == '"' then
      match FindFrom(t, "\"", p + 1)
      case Some(q) =>
        assert t[q..q + 1] == "\"";
        forall i | p < i < q ensures t[i] != '"' {
          assert !OccursAt(t, "\"", i);
          assert t[i..i + 1] == [t[i]];
        }
        if q > p + 1 then Some(q) else None
      case None => None
    else None
  }

  /** Every capitalised word standing alone is matched, up to its own end. */
  lemma {:induction false} CapWordAtComplete(t: string, p: nat, e: nat)
    requires p + 2 <= e <= |t| && IsUpper(t[p]) && (p == 0 || !IsWordChar(t[p - 1]))
    requires forall i :: p < i < e ==> IsLetter(t[i])
    requires e == |t| || !IsWordChar(t[e])
    ensures CapWordAt(t, p) == Some(e)
  {
    var s := t[p + 1..];
    assert forall i :: 0 <= i < e - p - 1 ==> IsLetter(s[i]);
    assert e - p - 1 < |s| ==> !IsLetter(s[e - p - 1]);
  }

  /** Every quoted passage with some text is matched, up to the next quote. */
  lemma {:induction false} QuotedAtComplete(t: string, p: nat, q: nat)
    requires p + 1 < q < |t| && t[p] == '"' && t[q] == '"'
    requires forall i :: p < i < q ==> t[i] != '"'
    ensures QuotedAt(t, p) == Some(q)
  {
    assert OccursAt(t, "\"", q) by { assert t[q..q + 1] == [t[q]]; }
    var r := FindFrom(t, "\"", p + 1);
    assert r.Some?;
    assert t[r.value] == '"' by { assert t[r.value..r.value + 1] == "\""; }
  }

  /** `re.findall` with the tag expression, the non-empty groups flattened, scanning from `p`. */
  function FindTags(t: string, p: nat): seq<string>
    decreases |t| - p
  {
    if p >= |t| then []
    else
      match CapWordAt(t, p)
      case Some(e) => [t[p..e]] + FindTags(t, e)
      case None =>
        match QuotedAt(t, p)
        case Some(q) => [t[p + 1..q]] + FindTags(t, q + 1)
        case None => FindTags(t, p + 1)
  }

  /** A capitalised word of two or more letters, or the text of a quoted passage. */
  predicate TagShape(tag: string) {
    || (|tag| >= 2 && IsUpper(tag[0]) && forall i :: 1 <= i < |tag| ==> IsLetter(tag[i]))
    || (tag != [] && '"' !in tag)
  }

  /** Every tag found is a piece of the text of one of the two shapes. */
  lemma {:induction false} FindTagsShape(t: string, p: nat)
    ensures forall tag :: tag in FindTags(t, p) ==> TagShape(tag) && Contains(t, tag)
    decreases |t| - p
  {
    if p < |t| {
      match CapWordAt(t, p)
      case Some(e) =>
        FindTagsShape(t, e);
        assert OccursAt(t, t[p..e], p);
        assert TagShape(t[p..e]);
      case None =>
        match QuotedAt(t, p)
        case Some(q) =>
          FindTagsShape(t, q + 1);
          assert OccursAt(t, t[p + 1..q], p + 1);
          assert '"' !in t[p + 1..q];
        case None =>
          FindTagsShape(t, p + 1);
    }
  }

  /** The scan finds nothing exactly when neither alternative matches at any position. */
  lemma {:induction false} FindTagsEmptyIff(t: string, p: nat)
    ensures FindTags(t, p) == [] <==> forall i :: p <= i < |t| ==> CapWordAt(t, i).None? && QuotedAt(t, i).None?
    decreases |t| - p
  {
    if p < |t| && CapWordAt(t, p).None? && QuotedAt(t, p).None? {
      FindTagsEmptyIff(t, p + 1);
    }
  }

  /** `random.randint(3, 5)` and the iteration order of a `set`, both left to the runtime. */
  datatype Runtime = Runtime(randint: nat -> int, setOrder: seq<string> -> seq<string>) {
    ghost predicate Valid() {
      && (forall n :: 3 <= randint(n) <= 5)
      && (forall ts :: Distinct(setOrder(ts)) && (forall x :: x in setOrder(ts) <==> x in ts))
    }
  }

  predicate Distinct(xs: seq<string>) {
    forall i, j :: 0 <= i < j < |xs| ==> xs[i] != xs[j]
  }

  predicate StrItems(items: seq<Json>) { forall i :: 0 <= i < |items| ==> items[i].Str? }

  function Texts(items: seq<Json>): (r: seq<string>)
    requires StrItems(items)
    ensures |r| == |items| && forall i :: 0 <= i < |items| ==> Str(r[i]) == items[i]
  {
    seq(|items|, i requires 0 <= i < |items| => items[i].s)
  }

  /** What `" ".join(highlights)` joins: the items of a list, the characters of a string, the keys
      of a dictionary. */
  function HighlightTexts(h: Json): seq<string>
    requires Iterable(h) && StrItems(Iterate(h))
  {
    Texts(Iterate(h))
  }

  /** The highlights the tag helper accepts without raising: falsy, or something whose items are
      strings; a dictionary only when tags are found, since the fallback reads `highlights[0]`,
      a key no JSON object has. */
  predicate TagInput(h: Json) {
    !Truthy(h) || (Iterable(h) && StrItems(Iterate(h)) && (h.Obj? ==> FindTags(Join(" ", HighlightTexts(h)), 0) != []))
  }

  const FallbackTags: seq<string> := ["Development", "Implementation", "Design"]

  /** `_extract_tags_from_highlights(highlights)`. For a dictionary whose tags the runtime's set
      order loses (which a valid runtime never does) the empty list stands for the `KeyError`. */
  function ExtractTags(runtime: Runtime, h: Json): seq<string>
    requires TagInput(h)
  {
    if !Truthy(h) then []
    else
      var found := FindTags(Join(" ", HighlightTexts(h)), 0);
      var unique := runtime.setOrder(found);
      var first3 := if |unique| <= 3 then unique else unique[..3];
      if first3 != [] || h.Obj? then first3
      else
        var words := Split(Iterate(h)[0].s);
        if |words| >= 3 then [words[0], words[2], "Development"] else FallbackTags
  }

  /** No highlights, no tags. */
  lemma {:induction false} TagsOfNothing(runtime: Runtime, h: Json)
    requires !Truthy(h)
    ensures ExtractTags(runtime, h) == []
  {
  }

  /** When the text has tags, the result is up to three distinct ones of them: three when there
      are at least three distinct tags, all of them otherwise. */
  lemma {:induction false} TagsFound(runtime: Runtime, h: Json)
    requires runtime.Valid() && Truthy(h) && Iterable(h) && StrItems(Iterate(h))
    requires FindTags(Join(" ", HighlightTexts(h)), 0) != []
    ensures var r := ExtractTags(runtime, h);
      var found := FindTags(Join(" ", HighlightTexts(h)), 0);
      && 1 <= |r| <= 3 && Distinct(r)
      && (forall x :: x in r ==> x in found)
      && (|r| < 3 ==> forall x :: x in found ==> x in r)
  {
    var found := FindTags(Join(" ", HighlightTexts(h)), 0);
    var unique := runtime.setOrder(found);
    assert found[0] in unique;
  }

  lemma {:induction false} HeadIn(xs: seq<string>)
    ensures xs != [] ==> xs[0] in xs
  {
  }

  /** When the text of a list or a string has no tag, the first, third and `Development` of the
      words of the first item, or the three defaults. */
  lemma {:induction false} TagsFallback(runtime: Runtime, h: Json)
    requires runtime.Valid() && Truthy(h) && (h.Arr? || h.Str?) && StrItems(Iterate(h))
    requires FindTags(Join(" ", HighlightTexts(h)), 0) == []
    ensures var words := Split(Iterate(h)[0].s);
      ExtractTags(runtime, h) == if |words| >= 3 then [words[0], words[2], "Development"] else FallbackTags
  {
    var unique := runtime.setOrder(FindTags(Join(" ", HighlightTexts(h)), 0));
    HeadIn(unique);
  }

  /** Every accepted input gets at most three tags, and none exactly when it is falsy. */
  lemma {:induction false} TagsCount(runtime: Runtime, h: Json)
    requires runtime.Valid() && TagInput(h)
    ensures |ExtractTags(runtime, h)| <= 3
    ensures ExtractTags(runtime, h) == [] <==> !Truthy(h)
  {
    if Truthy(h) {
      if FindTags(Join(" ", HighlightTexts(h)), 0) != [] {
        TagsFound(runtime, h);
      } else {
        TagsFallback(runtime, h);
      }
    }
  }

  /** `_format_date` gives `""` exactly for a falsy value. */
  lemma {:induction false} FormatDateFalsy(v: Json)
    requires !Truthy(v) || v.Str?
    ensures FormatDate(v) == [] <==> !Truthy(v)
  {
    if Truthy(v) {
      FormatDateEmpty(v.s);
    }
  }

  /** A string given as the highlights is joined character by character, so no capitalised
      word survives: without a double quote in it, it always gets the three defaults
      (`"Led Team"` does). */
  lemma {:induction false} TagsOfString(runtime: Runtime, s: string)
    requires runtime.Valid() && s != [] && '"' !in s
    ensures ExtractTags(runtime, Str(s)) == FallbackTags
  {
    var h := Str(s);
    var t := Join(" ", HighlightTexts(h));
    JoinSingles(s, HighlightTexts(h));
    forall i | 0 <= i < |t| ensures CapWordAt(t, i).None? && QuotedAt(t, i).None? {
      assert t[i] != '"' by { if i % 2 == 0 { assert t[i] in s; } }
      if i + 1 < |t| {
        assert !IsLetter(t[i + 1]) || !IsUpper(t[i]);
        if IsUpper(t[i]) {
          assert t[i + 1..][0] == t[i + 1];
        }
      }
    }
    FindTagsEmptyIff(t, 0);
    TagsFallback(runtime, h);
    assert Iterate(h)[0].s == [s[0]];
    assert |Split([s[0]])| <= 1 by {
      assert [s[0]][1..] == [] && [] + [s[0]] == [s[0]];
      if IsSpace(s[0]) {
        assert SplitFrom([s[0]], []) == [] + SplitFrom([], []);
      } else {
        assert SplitFrom([s[0]], []) == SplitFrom([], [s[0]]) == [[s[0]]];
      }
    }
  }

  /** `" ".join` of the characters of `s`: each character at an even index, spaces between. */
  lemma {:induction false} JoinSingles(s: string, ws: seq<string>)
    requires s != [] && |ws| == |s| && forall i :: 0 <= i < |s| ==> ws[i] == [s[i]]
    ensures var t := Join(" ", ws);
      && |t| == 2 * |s| - 1
      && forall i :: 0 <= i < |t| ==> t[i] == if i % 2 == 0 then s[i / 2] else ' '
    decreases |s|
  {
    if |s| > 1 {
      JoinSingles(s[1..], ws[1..]);
    }
  }

  /** `"ab" Go` gives the quoted phrase, then the capitalised word. */
  lemma {:induction false} FindTagsExample()
    ensures FindTags("\"ab\" Go", 0) == ["ab", "Go"]
  {
    var t := "\"ab\" Go";
    ExampleQuote(t);
    ExampleSpace(t);
    ExampleWord(t);
  }

  lemma {:induction false} ExampleQuote(t: string)
    requires t == "\"ab\" Go"
    ensures FindTags(t, 0) == ["ab"] + FindTags(t, 4)
  {
    assert CapWordAt(t, 0).None?;
    assert t[1..3] == "ab";
    assert |t| == 7 && t[1] == 'a' && t[2] == 'b' && t[3] == '"';
    assert t[3..4] == [t[3]] && t[2..3] == [t[2]] && t[1..2] == [t[1]];
    assert FindFrom(t, "\"", 3) == Some(3);
    assert FindFrom(t, "\"", 2) == Some(3);
    assert FindFrom(t, "\"", 1) == Some(3);
    assert QuotedAt(t, 0) == Some(3);
  }

  lemma {:induction false} ExampleSpace(t: string)
    requires t == "\"ab\" Go"
    ensures FindTags(t, 4) == FindTags(t, 5)
  {
    assert CapWordAt(t, 4).None? && QuotedAt(t, 4).None?;
  }

  lemma {:induction false} ExampleWord(t: string)
    requires t == "\"ab\" Go"
    ensures FindTags(t, 5) == ["Go"]
  {
    assert LetterRun(t[6..]) == 1;
    assert CapWordAt(t, 5) == Some(7);
    assert t[5..7] == "Go";
    assert FindTags(t, 7) == [];
  }
}

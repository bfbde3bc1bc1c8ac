/** Turning a model's free-text reply into JSON: `clean_llm_response` (find the JSON span with the
    regular expression `(\{.*\}|\[.*\])`, drop newlines, re-serialise) and `parse_json_safely`
    (strict parse, then a quote-repairing retry, then `{}`). */
module Sanitize {
  import opened PyText
  import opened JsonData

  const NoValidJson := "No valid JSON found"
  const InvalidJsonFormat := "Invalid JSON format"

  predicate Opener(c: char) { c == '{' || c == '[' }

  function Closer(c: char): char { if c == '{' then '}' else ']' }

  /** Index of the last `c` in `t`. */
  function LastIndex(t: string, c: char): (r: Option<nat>)
    ensures r.None? <==> c !in t
    ensures r.Some? ==> r.value < |t| && t[r.value] == c && forall j :: r.value < j < |t| ==> t[j] != c
  {
    if t == [] then None
    else if t[|t| - 1] == c then Some(|t| - 1)
    else
      var r := LastIndex(t[..|t| - 1], c);
      assert forall x :: x in t ==> x in t[..|t| - 1] || x == t[|t| - 1];
      r
  }

  /** A match of the regular expression can start at `i`: an opening bracket with its closing
      bracket somewhere after it (DOTALL: newlines included). */
  predicate OpensSpan(t: string, i: nat) {
    i < |t| && Opener(t[i]) && exists j :: i < j < |t| && t[j] == Closer(t[i])
  }

  /** `re.search(r'(\{.*\}|\[.*\])', t[from..], re.DOTALL)`: the leftmost start, and, `.*` being
      greedy, the end just after the last matching closing bracket. */
  function FindSpan(t: string, from: nat): (r: Option<(nat, nat)>)
    ensures r.None? <==> forall i :: from <= i < |t| ==> !OpensSpan(t, i)
    ensures r.Some? ==> var (b, e) := r.value;
      && from <= b < e <= |t| && OpensSpan(t, b)
      && (forall i :: from <= i < b ==> !OpensSpan(t, i))
      && t[e - 1] == Closer(t[b])
      && (forall j :: e <= j < |t| ==> t[j] != Closer(t[b]))
    decreases |t| - from
  {
    if from >= |t| then None
    else if Opener(t[from]) && LastIndex(t, Closer(t[from])).Some? && LastIndex(t, Closer(t[from])).value > from then
      var j := LastIndex(t, Closer(t[from])).value;
      assert OpensSpan(t, from) by { assert from < j < |t| && t[j] == Closer(t[from]); }
      Some((from, j + 1))
    else
      assert !OpensSpan(t, from) by {
        if Opener(t[from]) {
          assert forall j :: from < j < |t| ==> t[j] != Closer(t[from]);
        }
      }
      FindSpan(t, from + 1)
  }

  /** `match.group(0).replace('\n', '').strip()`, when the expression matches. */
  function SpanText(t: string): (r: Option<string>)
    ensures r.None? <==> forall i :: 0 <= i < |t| ==> !OpensSpan(t, i)
  {
    match FindSpan(t, 0)
    case None => None
    case Some((b, e)) => Some(Strip(ReplaceAll(t[b..e], "\n", "")))
  }

  /** The cleaned span starts with the opening bracket, ends with its closing bracket and holds no
      newline. */
  lemma {:induction false} SpanTextShape(t: string)
    requires SpanText(t).Some?
    ensures var c := SpanText(t).value;
      && |c| >= 2 && Opener(c[0]) && c[|c| - 1] == Closer(c[0]) && '\n' !in c
  {
    var (b, e) := FindSpan(t, 0).value;
    CleanedShape(t[b..e]);
  }

  /** A span from an opening bracket to its closing bracket keeps both once cleaned. */
  lemma {:induction false} CleanedShape(span: string)
    requires |span| >= 2 && Opener(span[0]) && span[|span| - 1] == Closer(span[0])
    ensures var c := Strip(ReplaceAll(span, "\n", ""));
      && |c| >= 2 && Opener(c[0]) && c[|c| - 1] == Closer(c[0]) && '\n' !in c
  {
    ReplaceCharRemoves(span, '\n');
    ReplaceKeepsEnds(span, '\n');
    StripUnspaced(ReplaceAll(span, "\n", ""));
  }

  /** Removing a character other than the first and the last keeps them in place. */
  lemma {:induction false} ReplaceKeepsEnds(s: string, c: char)
    requires |s| >= 2 && s[0] != c && s[|s| - 1] != c
    ensures var d := ReplaceAll(s, [c], "");
      |d| >= 2 && d[0] == s[0] && d[|d| - 1] == s[|s| - 1]
  {
    assert s[..1] != [c];
    assert ReplaceAll(s, [c], "") == [s[0]] + ReplaceAll(s[1..], [c], "");
    KeepsLast(s[1..], c);
  }

  lemma {:induction false} KeepsLast(s: string, c: char)
    requires |s| >= 1 && s[|s| - 1] != c
    ensures var d := ReplaceAll(s, [c], "");
      |d| >= 1 && d[|d| - 1] == s[|s| - 1]
    decreases |s|
  {
    if |s| > 1 {
      KeepsLast(s[1..], c);
    } else {
      assert s[..1] == s;
    }
  }

  /** `clean_llm_response(response_text)` */
  function CleanLlmResponse(codec: Codec, t: string): (r: string)
    ensures SpanText(t).None? ==> r == NoValidJson
    ensures SpanText(t).Some? && codec.loads(SpanText(t).value).DecodeError? ==> r == InvalidJsonFormat
    ensures codec.Valid() && SpanText(t).Some? && codec.loads(SpanText(t).value).Parsed? ==>
      codec.loads(r) == codec.loads(SpanText(t).value)
  {
    match SpanText(t)
    case None => NoValidJson
    case Some(c) =>
      match codec.loads(c)
      case Parsed(j) => codec.dumps(j)
      case DecodeError(_) => InvalidJsonFormat
  }

  /** `re.sub(r'([{,])\s*(\w+):', r'\1"\2":', s)`: after an opening brace or a comma, optional
      whitespace (dropped) and a bare identifier followed by a colon become a quoted key. The scan
      resumes after the colon of each replaced match. */
  function QuoteBareKeys(s: string): string
    decreases |s|
  {
    if s == [] then []
    else
      var h := KeyAt(s);
      Emitted(s, h) + QuoteBareKeys(s[Consumed(s, h)..])
  }

  /** `h` describes a stretch at the start of `s`: a match inside `s`, or its first character. */
  predicate Fits(s: string, h: KeyHit) {
    s != [] && (h.Hit? ==> 2 + h.k + h.w <= |s|)
  }

  /** What the substitution writes for the start of `s`: at a match, the opening character,
      the quoted key and the colon; elsewhere the first character as it is. */
  function Emitted(s: string, h: KeyHit): string
    requires Fits(s, h)
  {
    match h
    case Hit(k, w) => [s[0], '"'] + s[1 + k..1 + k + w] + ['"', ':']
    case Miss => [s[0]]
  }

  /** How much of `s` that covers: the whole match, or the first character. */
  function Consumed(s: string, h: KeyHit): (n: nat)
    requires Fits(s, h)
    ensures 1 <= n <= |s|
  {
    match h
    case Hit(k, w) => 2 + k + w
    case Miss => 1
  }

  /** Where the expression matches: `k` whitespace characters, then a word of `w` characters. */
  datatype KeyHit = Miss | Hit(k: nat, w: nat)

  /** Whether the expression matches at the start of `s`: when `s[0]` is `{` or `,`, `k`
      whitespace characters follow, then a word of `w` characters, then a colon. Neither run
      can give characters back to the other or to the colon, so the greedy runs decide. */
  function KeyAt(s: string): (r: KeyHit)
    requires s != []
    ensures Fits(s, r)
    ensures s[0] != '{' && s[0] != ',' ==> r.Miss?
  {
    if s[0] == '{' || s[0] == ',' then
      var a := SpacesEnd(s, 1);
      var b := WordEnd(s, a);
      if a < b < |s| && s[b] == ':' then Hit(a - 1, b - a) else Miss
    else Miss
  }

  /** A match found is one. */
  lemma {:induction false} KeyAtMatch(s: string)
    requires s != [] && KeyAt(s).Hit?
    ensures KeyMatch(s, KeyAt(s).k, KeyAt(s).w)
  {
    SpacesEndAll(s, 1);
    WordEndAll(s, SpacesEnd(s, 1));
  }

  /** Every match is found, with its own runs: the match at the start of `s` is unique. */
  lemma {:induction false} KeyAtComplete(s: string, k: nat, w: nat)
    requires KeyMatch(s, k, w)
    ensures KeyAt(s) == Hit(k, w)
  {
    assert !IsSpace(s[1 + k]) by { assert IsWordChar(s[1 + k]); }
    SpacesEndStops(s, 1, 1 + k);
    WordEndStops(s, 1 + k, 1 + k + w);
  }

  /** `s[0]` is `{` or `,`, then come `k` whitespace characters, a word of `w` characters and a
      colon. */
  predicate KeyMatch(s: string, k: nat, w: nat) {
    && |s| >= 2 + k + w && (s[0] == '{' || s[0] == ',') && 0 < w && s[1 + k + w] == ':'
    && (forall i :: 1 <= i < 1 + k ==> IsSpace(s[i]))
    && (forall i :: 1 + k <= i < 1 + k + w ==> IsWordChar(s[i]))
  }

  /** The end of the run of whitespace in `s` from index `i`. */
  function SpacesEnd(s: string, i: nat): (j: nat)
    requires i <= |s|
    ensures i <= j <= |s|
    decreases |s| - i
  {
    if i < |s| && IsSpace(s[i]) then SpacesEnd(s, i + 1) else i
  }

  /** The end of the run of word characters in `s` from index `i`. */
  function WordEnd(s: string, i: nat): (j: nat)
    requires i <= |s|
    ensures i <= j <= |s|
    decreases |s| - i
  {
    if i < |s| && IsWordChar(s[i]) then WordEnd(s, i + 1) else i
  }

  lemma {:induction false} SpacesEndAll(s: string, i: nat)
    requires i <= |s|
    ensures forall x :: i <= x < SpacesEnd(s, i) ==> IsSpace(s[x])
    decreases |s| - i
  {
    if i < |s| && IsSpace(s[i]) {
      SpacesEndAll(s, i + 1);
    }
  }

  lemma {:induction false} WordEndAll(s: string, i: nat)
    requires i <= |s|
    ensures forall x :: i <= x < WordEnd(s, i) ==> IsWordChar(s[x])
    decreases |s| - i
  {
    if i < |s| && IsWordChar(s[i]) {
      WordEndAll(s, i + 1);
    }
  }

  /** A whitespace run that stops at `j` ends at `j`. */
  lemma {:induction false} SpacesEndStops(s: string, i: nat, j: nat)
    requires i <= j <= |s|
    requires forall x :: i <= x < j ==> IsSpace(s[x])
    requires j == |s| || !IsSpace(s[j])
    ensures SpacesEnd(s, i) == j
    decreases j - i
  {
    if i < j {
      SpacesEndStops(s, i + 1, j);
    }
  }

  /** A run of word characters that stops at `j` ends at `j`. */
  lemma {:induction false} WordEndStops(s: string, i: nat, j: nat)
    requires i <= j <= |s|
    requires forall x :: i <= x < j ==> IsWordChar(s[x])
    requires j == |s| || !IsWordChar(s[j])
    ensures WordEnd(s, i) == j
    decreases j - i
  {
    if i < j {
      WordEndStops(s, i + 1, j);
    }
  }

  /** What `Squeeze` keeps of one character: nothing of a double quote or whitespace. */
  function Kept(c: char): (r: string)
    ensures IsWordChar(c) || c == ':' || c == '{' || c == ',' ==> r == [c]
  {
    if c == '"' || IsSpace(c) then [] else [c]
  }

  /** `s` without its double quotes and whitespace. */
  function Squeeze(s: string): string {
    if s == [] then [] else Kept(s[0]) + Squeeze(s[1..])
  }

  lemma {:induction false} SqueezeAppend(a: string, b: string)
    ensures Squeeze(a + b) == Squeeze(a) + Squeeze(b)
  {
    if a == [] {
      assert a + b == b;
    } else {
      SqueezeAppend(a[1..], b);
      assert (a + b)[1..] == a[1..] + b;
      AppendAssoc(Kept(a[0]), Squeeze(a[1..]), Squeeze(b));
    }
  }

  lemma {:induction false} SqueezeBlank(s: string)
    requires forall i :: 0 <= i < |s| ==> IsSpace(s[i])
    ensures Squeeze(s) == []
  {
    if s != [] {
      SqueezeBlank(s[1..]);
    }
  }

  lemma {:induction false} SqueezeWord(s: string)
    requires forall i :: 0 <= i < |s| ==> IsWordChar(s[i])
    ensures Squeeze(s) == s
  {
    if s != [] {
      SqueezeWord(s[1..]);
    }
  }

  /** The key repair only inserts double quotes and drops whitespace: apart from those, the
      text is unchanged. */
  lemma {:induction false} QuoteBareKeysSqueeze(s: string)
    ensures Squeeze(QuoteBareKeys(s)) == Squeeze(s)
    decreases |s|
  {
    if s != [] {
      var h := KeyAt(s);
      var rest := s[Consumed(s, h)..];
      QuoteBareKeysSqueeze(rest);
      SqueezeAppend(Emitted(s, h), QuoteBareKeys(rest));
      if h.Hit? {
        KeyAtMatch(s);
      }
      EmittedSqueeze(s, h);
    }
  }

  /** One step of the repair: what it writes squeezes to what it covers. */
  lemma {:induction false} EmittedSqueeze(s: string, h: KeyHit)
    requires Fits(s, h) && (h.Hit? ==> KeyMatch(s, h.k, h.w))
    ensures Squeeze(Emitted(s, h)) + Squeeze(s[Consumed(s, h)..]) == Squeeze(s)
  {
    match h
    case Hit(k, w) =>
      EmittedSqueezeHit(s, k, w);
    case Miss =>
      SqueezeAppend([s[0]], s[1..]);
      assert s == [s[0]] + s[1..];
  }

  lemma {:induction false} EmittedSqueezeHit(s: string, k: nat, w: nat)
    requires KeyMatch(s, k, w)
    ensures Squeeze(Emitted(s, Hit(k, w))) + Squeeze(s[2 + k + w..]) == Squeeze(s)
  {
    var key := s[1 + k..1 + k + w];
    assert Emitted(s, Hit(k, w)) == [s[0], '"'] + key + ['"', ':'];
    SqueezeQuotedKey(s[0], key);
    SqueezeBareKey(s, k, w);
  }

  /** What the replacement squeezes to. */
  lemma {:induction false} SqueezeQuotedKey(c: char, key: string)
    requires c == '{' || c == ','
    requires forall i :: 0 <= i < |key| ==> IsWordChar(key[i])
    ensures Squeeze([c, '"'] + key + ['"', ':']) == [c] + key + [':']
  {
    SqueezeAppend([c, '"'] + key, ['"', ':']);
    SqueezeAppend([c, '"'], key);
    SqueezeWord(key);
    assert Squeeze(['"', ':']) == [':'];
    assert Squeeze([c, '"']) == [c] by { assert [c, '"'][1..] == ['"']; }
  }

  /** What the matched text squeezes to. */
  lemma {:induction false} SqueezeBareKey(s: string, k: nat, w: nat)
    requires KeyMatch(s, k, w)
    ensures Squeeze(s) == [s[0]] + s[1 + k..1 + k + w] + [':'] + Squeeze(s[2 + k + w..])
  {
    var sp := s[1..1 + k];
    var key := s[1 + k..1 + k + w];
    assert s == [s[0]] + sp + key + [':'] + s[2 + k + w..];
    assert forall i :: 0 <= i < |sp| ==> sp[i] == s[1 + i];
    assert forall i :: 0 <= i < |key| ==> key[i] == s[1 + k + i];
    SqueezePieces(s[0], sp, key, s[2 + k + w..]);
  }

  /** An opening character, whitespace, a word, a colon and a tail squeeze to the character,
      the word, the colon and the squeezed tail. */
  lemma {:induction false} SqueezePieces(c: char, sp: string, key: string, tail: string)
    requires c == '{' || c == ','
    requires forall i :: 0 <= i < |sp| ==> IsSpace(sp[i])
    requires forall i :: 0 <= i < |key| ==> IsWordChar(key[i])
    ensures Squeeze([c] + sp + key + [':'] + tail) == [c] + key + [':'] + Squeeze(tail)
  {
    SqueezeBlank(sp);
    SqueezeWord(key);
    SqueezeAppend([c] + sp + key + [':'], tail);
    SqueezeAppend([c] + sp + key, [':']);
    SqueezeAppend([c] + sp, key);
    SqueezeAppend([c], sp);
    assert Squeeze([':']) == [':'];
    assert Squeeze([c]) == [c];
  }

  /** The key repair adds no character but the double quote. */
  lemma {:induction false} QuoteBareKeysChars(s: string)
    ensures forall x :: x in QuoteBareKeys(s) ==> x in s || x == '"'
    decreases |s|
  {
    if s != [] {
      var h := KeyAt(s);
      var rest := s[Consumed(s, h)..];
      QuoteBareKeysChars(rest);
      if h.Hit? {
        KeyAtMatch(s);
      }
      EmittedChars(s, h);
      assert QuoteBareKeys(s) == Emitted(s, h) + QuoteBareKeys(rest);
      forall x | x in QuoteBareKeys(s) ensures x in s || x == '"' {
        if x !in Emitted(s, h) && x != '"' {
          assert x in QuoteBareKeys(rest);
          var i :| 0 <= i < |rest| && rest[i] == x;
          assert s[Consumed(s, h) + i] == x;
        }
      }
    }
  }

  /** What one step writes comes from the text, or is a double quote. */
  lemma {:induction false} EmittedChars(s: string, h: KeyHit)
    requires Fits(s, h) && (h.Hit? ==> KeyMatch(s, h.k, h.w))
    ensures forall x :: x in Emitted(s, h) ==> x in s || x == '"'
  {
    match h
    case Hit(k, w) =>
      var key := s[1 + k..1 + k + w];
      forall x | x in Emitted(s, h) ensures x in s || x == '"' {
        if x in key {
          var i :| 0 <= i < |key| && key[i] == x;
          assert s[1 + k + i] == x;
        } else if x == ':' {
          assert s[1 + k + w] == ':';
        }
      }
    case Miss =>
  }

  /** A text with neither an opening brace nor a comma has no key to repair. */
  lemma {:induction false} QuoteBareKeysUntouched(s: string)
    requires '{' !in s && ',' !in s
    ensures QuoteBareKeys(s) == s
    decreases |s|
  {
    if s != [] {
      QuoteBareKeysUntouched(s[1..]);
    }
  }

  /** `{a:1}` becomes `{"a":1}`. */
  lemma {:induction false} QuoteBareKeysExample()
    ensures QuoteBareKeys("{a:1}") == "{\"a\":1}"
  {
    var s := "{a:1}";
    assert SpacesEnd(s, 1) == 1 by { assert !IsSpace(s[1]); }
    assert WordEnd(s, 1) == 2 by { assert !IsWordChar(s[2]); }
    assert KeyAt(s) == Hit(0, 1);
    assert Emitted(s, Hit(0, 1)) == "{\"a\":" by { assert s[1..2] == "a"; }
    assert s[Consumed(s, Hit(0, 1))..] == "1}";
    QuoteBareKeysUntouched("1}");
  }

  /** The text `parse_json_safely` retries with: single quotes swapped for double quotes, then
      bare keys quoted. */
  function RepairText(text: string): (r: string)
    ensures '\'' !in r
  {
    var swapped := ReplaceAll(text, "'", "\"");
    ReplaceCharChars(text, '\'', '"');
    QuoteBareKeysChars(swapped);
    QuoteBareKeys(swapped)
  }

  /** `parse_json_safely(text)`; `{}` when both attempts fail. */
  function ParseJsonSafely(codec: Codec, text: string): (r: Json)
    ensures codec.loads(text).Parsed? ==> r == codec.loads(text).value
    ensures codec.loads(text).DecodeError? && codec.loads(RepairText(text)).Parsed? ==>
      r == codec.loads(RepairText(text)).value
    ensures codec.loads(text).DecodeError? && codec.loads(RepairText(text)).DecodeError? ==> r == Obj([])
    ensures codec.Valid() ==> WellFormed(r)
  {
    match codec.loads(text)
    case Parsed(v) => v
    case DecodeError(_) =>
      match codec.loads(RepairText(text))
      case Parsed(v) => v
      case DecodeError(_) => Obj([])
  }

  /** Text that already is JSON is parsed as it stands: serialising a value and parsing it back
      safely gives the value. */
  lemma {:induction false} ParseSafelyRoundTrip(codec: Codec, j: Json)
    requires codec.Valid() && WellFormed(j)
    ensures ParseJsonSafely(codec, codec.dumps(j)) == j
  {
  }

  /** A text that cannot be JSON and has neither quotes, braces nor commas parses to `{}`. */
  lemma {:induction false} ParseSafelyGarbage(codec: Codec, text: string)
    requires codec.Valid() && CertainlyNotJson(text)
    requires '\'' !in text && '{' !in text && ',' !in text
    ensures ParseJsonSafely(codec, text) == Obj([])
  {
    CharAbsentNotContained(text, '\'');
    ReplaceAllAbsent(text, "'", "\"");
    QuoteBareKeysUntouched(text);
    assert RepairText(text) == text;
  }

  /** The two messages `clean_llm_response` returns in place of JSON parse to `{}`. */
  lemma {:induction false} SentinelsParseEmpty(codec: Codec)
    requires codec.Valid()
    ensures ParseJsonSafely(codec, NoValidJson) == Obj([])
    ensures ParseJsonSafely(codec, InvalidJsonFormat) == Obj([])
  {
    NoValidJsonParsesEmpty(codec);
    InvalidJsonFormatParsesEmpty(codec);
  }

  lemma {:induction false} NoValidJsonParsesEmpty(codec: Codec)
    requires codec.Valid()
    ensures ParseJsonSafely(codec, NoValidJson) == Obj([])
  {
    ParseSafelyGarbage(codec, NoValidJson);
  }

  lemma {:induction false} InvalidJsonFormatParsesEmpty(codec: Codec)
    requires codec.Valid()
    ensures ParseJsonSafely(codec, InvalidJsonFormat) == Obj([])
  {
    ParseSafelyGarbage(codec, InvalidJsonFormat);
  }

  /** Cleaning then parsing a reply yields the value of its JSON span when that span parses, and
      `{}` when the reply has no span or the span does not parse. */
  lemma {:induction false} CleanThenParse(codec: Codec, t: string)
    requires codec.Valid()
    ensures SpanText(t).Some? && codec.loads(SpanText(t).value).Parsed? ==>
      ParseJsonSafely(codec, CleanLlmResponse(codec, t)) == codec.loads(SpanText(t).value).value
    ensures SpanText(t).None? || codec.loads(SpanText(t).value).DecodeError? ==>
      ParseJsonSafely(codec, CleanLlmResponse(codec, t)) == Obj([])
  {
    SentinelsParseEmpty(codec);
    if SpanText(t).Some? && codec.loads(SpanText(t).value).Parsed? {
      ParseSafelyRoundTrip(codec, codec.loads(SpanText(t).value).value);
    }
  }
}

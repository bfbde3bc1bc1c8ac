/** The extraction step that turns a résumé PDF into JSON Resume data: text normalisation, the
    extraction prompt, null removal, the provider name, the reply text, and the decision chain of
    `convert_pdf_to_json_schema` once the PDF has been read and the model obtained. Reading the
    PDF, building the model and calling it are inputs. */
module Extract {
  import opened PyText
  import opened JsonData
  import opened Llm
  import Enhance

  const Nul: char := '\0'

  // ---------------------------------------------------------------- clean_text

  /** `" ".join(text.split()).replace('\x00', '')`: the text's words joined by single spaces,
      NUL characters then deleted. */
  function CleanText(text: string): string {
    ReplaceAll(Join(" ", Split(text)), [Nul], "")
  }

  /** The result holds no NUL, and its only whitespace is the plain space. */
  lemma {:induction false} CleanTextChars(text: string)
    ensures Nul !in CleanText(text)
    ensures forall i :: 0 <= i < |CleanText(text)| && IsSpace(CleanText(text)[i]) ==> CleanText(text)[i] == ' '
  {
    var ws := Split(text);
    var j := Join(" ", ws);
    var r := CleanText(text);
    SplitWords(text);
    JoinChars(" ", ws);
    ReplaceCharRemoves(j, Nul);
    forall i | 0 <= i < |r| && IsSpace(r[i]) ensures r[i] == ' ' {
      assert r[i] in j;
    }
  }

  /** No whitespace at either end and no two whitespace characters in a row. */
  predicate Normalised(s: string) {
    && (s != [] ==> !IsSpace(s[0]) && !IsSpace(s[|s| - 1]))
    && forall i :: 0 <= i < |s| - 1 ==> !IsSpace(s[i]) || !IsSpace(s[i + 1])
  }

  /** Whitespace-free, non-empty words: what `str.split()` yields. */
  predicate Words(ws: seq<string>) {
    forall k :: 0 <= k < |ws| ==> ws[k] != [] && NoSpace(ws[k])
  }

  lemma {:induction false} SplitIsWords(s: string)
    ensures Words(Split(s))
  {
    SplitWords(s);
    forall k | 0 <= k < |Split(s)| ensures Split(s)[k] != [] && NoSpace(Split(s)[k]) {
      assert Split(s)[k] in Split(s);
    }
  }

  /** Words joined by single spaces are in normal form. */
  lemma {:induction false} JoinNormalised(ws: seq<string>)
    requires Words(ws)
    ensures Normalised(Join(" ", ws))
    decreases |ws|
  {
    if |ws| > 1 {
      var w := ws[0];
      var rest := Join(" ", ws[1..]);
      JoinNormalised(ws[1..]);
      assert ws[1..][0] == ws[1];
      assert rest != [] && !IsSpace(rest[0]) by {
        JoinHeadWord(ws[1..]);
      }
      var s := Join(" ", ws);
      assert s == w + " " + rest;
      forall i | 0 <= i < |s| - 1 ensures !IsSpace(s[i]) || !IsSpace(s[i + 1]) {
        if i < |w| {
          assert s[i] == w[i];
        } else if i == |w| {
          assert s[i + 1] == rest[0];
        } else {
          assert s[i] == rest[i - |w| - 1] && s[i + 1] == rest[i - |w|];
        }
      }
      assert s[0] == w[0];
      assert s[|s| - 1] == rest[|rest| - 1];
    }
  }

  /** A join of words starts with the first word. */
  lemma {:induction false} JoinHeadWord(ws: seq<string>)
    requires Words(ws) && ws != []
    ensures Join(" ", ws) != [] && Join(" ", ws)[0] == ws[0][0]
  {
    if |ws| > 1 {
      assert Join(" ", ws) == ws[0] + " " + Join(" ", ws[1..]);
    }
  }

  /** Reading a whitespace-free word only extends the current run. */
  lemma {:induction false} SplitFromWord(w: string, rest: string, cur: string)
    requires NoSpace(w)
    ensures SplitFrom(w + rest, cur) == SplitFrom(rest, cur + w)
    decreases |w|
  {
    if w == [] {
      assert w + rest == rest && cur + w == cur;
    } else {
      assert (w + rest)[0] == w[0];
      assert (w + rest)[1..] == w[1..] + rest;
      SplitFromWord(w[1..], rest, cur + [w[0]]);
      assert cur + [w[0]] + w[1..] == cur + w;
    }
  }

  /** `text.split()` undoes `" ".join(words)`. */
  lemma {:induction false} SplitJoin(ws: seq<string>)
    requires Words(ws)
    ensures Split(Join(" ", ws)) == ws
    decreases |ws|
  {
    if |ws| == 1 {
      SplitFromWord(ws[0], [], []);
      assert ws[0] + [] == ws[0] && [] + ws[0] == ws[0];
    } else if |ws| > 1 {
      var w := ws[0];
      var rest := Join(" ", ws[1..]);
      assert Join(" ", ws) == w + (" " + rest);
      SplitFromWord(w, " " + rest, []);
      assert [] + w == w;
      assert (" " + rest)[1..] == rest;
      assert SplitFrom(" " + rest, w) == [w] + SplitFrom(rest, []);
      SplitJoin(ws[1..]);
      assert ws == [w] + ws[1..];
    }
  }

  /** With no NUL to delete, `clean_text` is the plain join of the words. */
  lemma {:induction false} CleanTextJoins(text: string)
    requires Nul !in text
    ensures CleanText(text) == Join(" ", Split(text))
  {
    var j := Join(" ", Split(text));
    SplitWords(text);
    JoinChars(" ", Split(text));
    assert Nul !in j;
    CharAbsentNotContained(j, Nul);
    ReplaceAllAbsent(j, [Nul], "");
  }

  /** For NUL-free text the result has no whitespace at either end, no two in a row, and keeps
      the words of the input. */
  lemma {:induction false} CleanTextNormalised(text: string)
    requires Nul !in text
    ensures Normalised(CleanText(text))
    ensures Split(CleanText(text)) == Split(text)
  {
    CleanTextJoins(text);
    SplitIsWords(text);
    JoinNormalised(Split(text));
    SplitJoin(Split(text));
  }

  /** Cleaning NUL-free text twice is cleaning it once. */
  lemma {:induction false} CleanTextIdempotent(text: string)
    requires Nul !in text
    ensures CleanText(CleanText(text)) == CleanText(text)
  {
    var c := CleanText(text);
    CleanTextChars(text);
    CleanTextNormalised(text);
    CleanTextJoins(c);
    CleanTextJoins(text);
  }

  /** A NUL standing alone between spaces leaves two spaces once it is deleted. */
  lemma {:induction false} CleanTextNulGap()
    ensures CleanText("a \0 b") == "a  b"
    ensures !Normalised(CleanText("a \0 b"))
  {
    NulGapSplit();
    assert Join(" ", ["a", "\0", "b"]) == "a \0 b" by {
      assert ["a", "\0", "b"][1..] == ["\0", "b"];
      assert ["\0", "b"][1..] == ["b"];
    }
    NulGapReplace();
    var r := "a  b";
    assert IsSpace(r[1]) && IsSpace(r[2]);
  }

  lemma {:induction false} NulGapSplit()
    ensures Split("a \0 b") == ["a", "\0", "b"]
  {
    var s := "a \0 b";
    assert !IsSpace('a') && IsSpace(' ') && !IsSpace('\0') && !IsSpace('b');
    assert SplitFrom("b", []) == ["b"] by {
      assert "b"[1..] == [];
      assert [] + ['b'] == "b";
      assert SplitFrom("b", []) == SplitFrom([], "b");
    }
    assert SplitFrom("\0 b", []) == ["\0", "b"] by {
      assert "\0 b"[1..] == " b" && " b"[1..] == "b";
      assert [] + ['\0'] == "\0";
      assert SplitFrom("\0 b", []) == SplitFrom(" b", "\0");
      assert SplitFrom(" b", "\0") == ["\0"] + SplitFrom("b", []);
    }
    assert s[1..] == " \0 b" && s[1..][1..] == "\0 b";
    assert [] + ['a'] == "a";
    assert SplitFrom(s, []) == SplitFrom(" \0 b", "a");
    assert SplitFrom(" \0 b", "a") == ["a"] + SplitFrom("\0 b", []);
  }

  lemma {:induction false} NulGapReplace()
    ensures ReplaceAll("a \0 b", [Nul], "") == "a  b"
  {
    ReplaceCharStep(Nul, 'b', []);
    ReplaceCharStep(Nul, ' ', "b");
    ReplaceCharStep(Nul, Nul, " b");
    ReplaceCharStep(Nul, ' ', "\0 b");
    ReplaceCharStep(Nul, 'a', " \0 b");
    assert ['b'] + [] == "b" && [' '] + "b" == " b" && [Nul] + " b" == "\0 b";
    assert [' '] + "\0 b" == " \0 b" && ['a'] + " \0 b" == "a \0 b";
  }

  /** Deleting a character, one character at a time. */
  lemma {:induction false} ReplaceCharStep(c: char, x: char, rest: string)
    ensures ReplaceAll([x] + rest, [c], "") == (if x == c then [] else [x]) + ReplaceAll(rest, [c], "")
  {
    var s := [x] + rest;
    assert s[..1] == [x] && s[1..] == rest;
  }

  /** NUL deleted before the words are joined: normal form for every input. */
  function CleanTextIntended(text: string): (r: string)
    ensures Nul !in r
    ensures Normalised(r)
    ensures Split(r) == Split(ReplaceAll(text, [Nul], ""))
  {
    var t := ReplaceAll(text, [Nul], "");
    ReplaceCharRemoves(text, Nul);
    CleanTextChars(t);
    CleanTextNormalised(t);
    CleanTextJoins(t);
    Join(" ", Split(t))
  }

  /** The two agree on text without NUL. */
  lemma {:induction false} CleanTextIntendedAgrees(text: string)
    requires Nul !in text
    ensures CleanTextIntended(text) == CleanText(text)
  {
    CharAbsentNotContained(text, Nul);
    ReplaceAllAbsent(text, [Nul], "");
    CleanTextJoins(text);
  }

  // ---------------------------------------------------- create_extraction_prompt

  const Text := Str("string")

  /** A dictionary with the given keys, each mapped to `"string"`. */
  function Texts(keys: seq<string>): (d: Dict)
    ensures Keys(d) == keys
    ensures forall i :: 0 <= i < |d| ==> d[i].value == Text
  {
    if keys == [] then [] else [Member(keys[0], Text)] + Texts(keys[1..])
  }

  /** A dictionary literal: the keys in order, each with its value. */
  function Zip(keys: seq<string>, values: seq<Json>): (d: Dict)
    requires |keys| == |values|
    ensures Keys(d) == keys
    ensures forall i :: 0 <= i < |d| ==> d[i].value == values[i]
  {
    if keys == [] then [] else [Member(keys[0], values[0])] + Zip(keys[1..], values[1..])
  }

  /** The `schema_template` dictionary: the JSON Resume sections the model is asked to fill. */
  const BasicsKeys := ["name", "label", "email", "phone", "url", "summary", "location", "profiles"]
  const BasicsSchema := Obj(Zip(BasicsKeys, [Text, Text, Text, Text, Text, Text,
    Obj(Texts(["city", "countryCode"])), Arr([Obj(Texts(["network", "username", "url"]))])]))
  const WorkKeys := ["name", "position", "location", "startDate", "endDate", "highlights"]
  const WorkSchema := Arr([Obj(Zip(WorkKeys, [Text, Text, Text, Text, Text, Arr([Text])]))])
  const EducationKeys := ["institution", "area", "studyType", "startDate", "endDate", "courses"]
  const EducationSchema := Arr([Obj(Zip(EducationKeys, [Text, Text, Text, Text, Text, Arr([Text])]))])
  const SkillsSchema := Arr([Obj(Zip(["name", "keywords"], [Text, Arr([Text])]))])
  const ProjectsSchema := Arr([Obj(Texts(["name", "description", "startDate", "endDate"]))])
  const PublicationsKeys := ["name", "releaseDate", "authors", "doi", "url"]
  const PublicationsSchema := Arr([Obj(Zip(PublicationsKeys, [Text, Text, Arr([Text]), Text, Text]))])
  const AwardsSchema := Arr([Obj(Texts(["title", "awarder"]))])

  const SchemaSections := ["basics", "work", "education", "skills", "projects", "publications", "awards"]

  const SchemaTemplate := Obj(Zip(SchemaSections, [BasicsSchema, WorkSchema, EducationSchema,
    SkillsSchema, ProjectsSchema, PublicationsSchema, AwardsSchema]))

  /** The instruction list, abridged to its first and last items. */
  const ExtractionInstructions := "### Instructions:\n- Extract ALL information present in the resume\n"
  const ReturnOnlyJson := "- Return only valid JSON without additional text"

  const PromptHead := "Extract and structure resume information from the provided text into JSON format.\n"
    + "Below is the resume content:\n"
  const HyperlinksHeading := "\n\nHyperlinks Extracted:\n"
  const SchemaHeading := "\n\nFollow this exact structure:\n"

  /** `create_extraction_prompt(resume_text, hyperlinks)`: the f-string with the résumé text, the
      2-space JSON of the hyperlink list and of the schema. */
  function CreateExtractionPrompt(codec: Codec, resumeText: string, hyperlinks: seq<Json>): string {
    Layout(PromptHead, resumeText, HyperlinksHeading, codec.dumps(Arr(hyperlinks)), SchemaHeading,
      codec.dumps(SchemaTemplate), "\n\n\n" + ExtractionInstructions, ReturnOnlyJson)
  }

  /** Literal text and substituted fields, alternating. */
  function Layout(h1: string, f1: string, h2: string, f2: string, h3: string, f3: string, h4: string, f4: string): string {
    h1 + f1 + h2 + f2 + h3 + f3 + h4 + f4
  }

  /** The prompt carries the résumé text verbatim, the serialised hyperlink list, the serialised
      schema and the closing instruction. */
  lemma {:induction false} ExtractionPromptContents(codec: Codec, resumeText: string, hyperlinks: seq<Json>)
    ensures var r := CreateExtractionPrompt(codec, resumeText, hyperlinks);
      && Contains(r, resumeText)
      && Contains(r, codec.dumps(Arr(hyperlinks)))
      && Contains(r, codec.dumps(SchemaTemplate))
      && Contains(r, ReturnOnlyJson)
  {
    FieldsShown(PromptHead, resumeText, HyperlinksHeading, codec.dumps(Arr(hyperlinks)), SchemaHeading,
      codec.dumps(SchemaTemplate), "\n\n\n" + ExtractionInstructions, ReturnOnlyJson);
  }

  /** Each substituted field shows in the text. */
  lemma {:induction false} FieldsShown(h1: string, f1: string, h2: string, f2: string, h3: string, f3: string, h4: string, f4: string)
    ensures var r := Layout(h1, f1, h2, f2, h3, f3, h4, f4);
      Contains(r, f1) && Contains(r, f2) && Contains(r, f3) && Contains(r, f4)
  {
    var r := h1 + f1 + h2 + f2 + h3 + f3 + h4 + f4;
    assert OccursAt(r, f1, |h1|) by {
      assert r[|h1|..|h1| + |f1|] == f1;
    }
    var b := h1 + f1 + h2;
    assert OccursAt(r, f2, |b|) by {
      assert r[|b|..|b| + |f2|] == f2;
    }
    var c := b + f2 + h3;
    assert OccursAt(r, f3, |c|) by {
      assert r[|c|..|c| + |f3|] == f3;
    }
    var d := c + f3 + h4;
    assert OccursAt(r, f4, |d|) by {
      assert r[|d|..|d| + |f4|] == f4;
    }
  }

  /** The schema names exactly the seven JSON Resume sections, in this order. */
  lemma {:induction false} SchemaHasSections()
    ensures SchemaTemplate.Obj? && Keys(SchemaTemplate.fields) == SchemaSections
  {
  }

  predicate DistinctStrings(keys: seq<string>) {
    forall i, j :: 0 <= i < j < |keys| ==> keys[i] != keys[j]
  }

  /** A dictionary literal with distinct keys and well-formed values is well formed. */
  lemma {:induction false} ZipWellFormed(keys: seq<string>, values: seq<Json>)
    requires |keys| == |values| && DistinctStrings(keys)
    requires forall i :: 0 <= i < |values| ==> WellFormed(values[i])
    ensures WellFormed(Obj(Zip(keys, values)))
  {
    var d := Zip(keys, values);
    assert forall i :: 0 <= i < |d| ==> d[i].key == Keys(d)[i];
  }

  lemma {:induction false} TextsWellFormed(keys: seq<string>)
    requires DistinctStrings(keys)
    ensures WellFormed(Obj(Texts(keys)))
  {
    var d := Texts(keys);
    assert forall i :: 0 <= i < |d| ==> d[i].key == Keys(d)[i];
  }

  /** A list holding one well-formed value. */
  lemma {:induction false} SingletonWellFormed(v: Json)
    requires WellFormed(v)
    ensures WellFormed(Arr([v]))
  {
  }

  /** Every object of the schema has distinct keys, so the schema text in the prompt decodes
      back to the schema. */
  lemma {:induction false} SchemaDecodes(codec: Codec)
    requires codec.Valid()
    ensures codec.loads(codec.dumps(SchemaTemplate)) == Parsed(SchemaTemplate)
  {
    SchemaWellFormed();
  }

  lemma {:induction false} SchemaWellFormed()
    ensures WellFormed(SchemaTemplate)
  {
    BasicsWellFormed();
    WorkWellFormed();
    EducationWellFormed();
    SkillsWellFormed();
    ProjectsWellFormed();
    PublicationsWellFormed();
    AwardsWellFormed();
    SectionsDistinct();
    ZipWellFormed(SchemaSections, [BasicsSchema, WorkSchema, EducationSchema,
      SkillsSchema, ProjectsSchema, PublicationsSchema, AwardsSchema]);
  }

  lemma {:induction false} SectionsDistinct()
    ensures DistinctStrings(SchemaSections)
  {
  }

  lemma {:induction false} BasicsWellFormed()
    ensures WellFormed(BasicsSchema)
  {
    TextsWellFormed(["city", "countryCode"]);
    TextsWellFormed(["network", "username", "url"]);
    SingletonWellFormed(Obj(Texts(["network", "username", "url"])));
    ZipWellFormed(BasicsKeys, [Text, Text, Text, Text, Text, Text,
      Obj(Texts(["city", "countryCode"])), Arr([Obj(Texts(["network", "username", "url"]))])]);
  }

  lemma {:induction false} WorkWellFormed()
    ensures WellFormed(WorkSchema)
  {
    SingletonWellFormed(Text);
    ZipWellFormed(WorkKeys, [Text, Text, Text, Text, Text, Arr([Text])]);
    SingletonWellFormed(Obj(Zip(WorkKeys, [Text, Text, Text, Text, Text, Arr([Text])])));
  }

  lemma {:induction false} EducationWellFormed()
    ensures WellFormed(EducationSchema)
  {
    SingletonWellFormed(Text);
    ZipWellFormed(EducationKeys, [Text, Text, Text, Text, Text, Arr([Text])]);
    SingletonWellFormed(Obj(Zip(EducationKeys, [Text, Text, Text, Text, Text, Arr([Text])])));
  }

  lemma {:induction false} SkillsWellFormed()
    ensures WellFormed(SkillsSchema)
  {
    SingletonWellFormed(Text);
    ZipWellFormed(["name", "keywords"], [Text, Arr([Text])]);
    SingletonWellFormed(Obj(Zip(["name", "keywords"], [Text, Arr([Text])])));
  }

  lemma {:induction false} ProjectsWellFormed()
    ensures WellFormed(ProjectsSchema)
  {
    TextsWellFormed(["name", "description", "startDate", "endDate"]);
    SingletonWellFormed(Obj(Texts(["name", "description", "startDate", "endDate"])));
  }

  lemma {:induction false} PublicationsWellFormed()
    ensures WellFormed(PublicationsSchema)
  {
    SingletonWellFormed(Text);
    ZipWellFormed(PublicationsKeys, [Text, Text, Arr([Text]), Text, Text]);
    SingletonWellFormed(Obj(Zip(PublicationsKeys, [Text, Text, Arr([Text]), Text, Text])));
  }

  lemma {:induction false} AwardsWellFormed()
    ensures WellFormed(AwardsSchema)
  {
    TextsWellFormed(["title", "awarder"]);
    SingletonWellFormed(Obj(Texts(["title", "awarder"])));
  }

  // ---------------------------------------------------------- remove_null_values

  /** No `None` anywhere in the value. */
  predicate NullFree(j: Json) {
    match j
    case Null => false
    case Arr(items) => forall i :: 0 <= i < |items| ==> NullFree(items[i])
    case Obj(fields) => forall i :: 0 <= i < |fields| ==> NullFree(fields[i].value)
    case _ => true
  }

  /** `remove_null_values(obj)`: every `None`, at any depth, becomes `""`; lists keep their
      length, dictionaries their keys in order, and other values are returned as they are. */
  function RemoveNullValues(j: Json): (r: Json)
    ensures NullFree(r)
    ensures j.Null? ==> r == Str("")
    ensures !j.Null? && !j.Arr? && !j.Obj? ==> r == j
    ensures j.Arr? ==> r.Arr? && |r.items| == |j.items|
    ensures j.Obj? ==> r.Obj? && Keys(r.fields) == Keys(j.fields)
    ensures WellFormed(j) ==> WellFormed(r)
    decreases j
  {
    match j
    case Null => Str("")
    case Arr(items) => Arr(seq(|items|, i requires 0 <= i < |items| => RemoveNullValues(items[i])))
    case Obj(fields) =>
      var r := seq(|fields|, i requires 0 <= i < |fields| => Member(fields[i].key, RemoveNullValues(fields[i].value)));
      assert Keys(r) == Keys(fields);
      Obj(r)
    case _ => j
  }

  /** A value without nulls is left as it is. */
  lemma {:induction false} RemoveNullsFixesNullFree(j: Json)
    requires NullFree(j)
    ensures RemoveNullValues(j) == j
    decreases j
  {
    match j
    case Arr(items) =>
      forall i | 0 <= i < |items| ensures RemoveNullValues(items[i]) == items[i] {
        RemoveNullsFixesNullFree(items[i]);
      }
      assert RemoveNullValues(j).items == items;
    case Obj(fields) =>
      forall i | 0 <= i < |fields| ensures RemoveNullValues(fields[i].value) == fields[i].value {
        RemoveNullsFixesNullFree(fields[i].value);
      }
      assert RemoveNullValues(j).fields == fields;
    case _ =>
  }

  /** Removing nulls twice is removing them once. */
  lemma {:induction false} RemoveNullsIdempotent(j: Json)
    ensures RemoveNullValues(RemoveNullValues(j)) == RemoveNullValues(j)
  {
    RemoveNullsFixesNullFree(RemoveNullValues(j));
  }

  /** Each list item and each dictionary value is cleaned in place. */
  lemma {:induction false} RemoveNullsInPlace(j: Json)
    ensures j.Arr? ==> forall i :: 0 <= i < |j.items| ==> RemoveNullValues(j).items[i] == RemoveNullValues(j.items[i])
    ensures j.Obj? ==> forall i :: 0 <= i < |j.fields| ==>
      RemoveNullValues(j).fields[i] == Member(j.fields[i].key, RemoveNullValues(j.fields[i].value))
  {
  }

  /** A key is present after null removal exactly when it was present before. */
  lemma {:induction false} RemoveNullsKeepsKey(d: Dict, k: string)
    ensures RemoveNullValues(Obj(d)).Obj?
    ensures HasKey(RemoveNullValues(Obj(d)).fields, k) <==> HasKey(d, k)
  {
    GetFound(d, k);
    GetFound(RemoveNullValues(Obj(d)).fields, k);
  }

  // ------------------------------------------- get_model_name, extract_response_text

  /** `get_model_name(model)`: a lookup on the exact type, so subclasses are `"unknown"`. */
  function GetModelName(cls: ModelClass): (r: string)
    ensures r in ["gemini", "openai", "deepseek", "unknown"]
    ensures r != "unknown" ==> cls.exact
    ensures cls.exact && cls.family == GoogleGenerativeAI ==> r == "gemini"
    ensures cls.exact && cls.family == ChatOpenAI ==> r == "openai"
    ensures cls.exact && cls.family == ChatDeepSeek ==> r == "deepseek"
    ensures cls.family == OpenAI || cls.family == OtherModel ==> r == "unknown"
  {
    if !cls.exact then "unknown"
    else match cls.family
      case GoogleGenerativeAI => "gemini"
      case ChatOpenAI => "openai"
      case ChatDeepSeek => "deepseek"
      case _ => "unknown"
  }

  /** Only the three mapped classes have a name, and no two share one. */
  lemma {:induction false} ModelNames(a: ModelClass, b: ModelClass)
    ensures GetModelName(a) != "unknown" <==>
      a.exact && (a.family == GoogleGenerativeAI || a.family == ChatOpenAI || a.family == ChatDeepSeek)
    ensures GetModelName(a) == GetModelName(b) != "unknown" ==> a.family == b.family
  {
  }

  /** `isinstance(model, (ChatOpenAI, ChatDeepSeek))` */
  predicate ChatFamily(cls: ModelClass) { cls.family == ChatOpenAI || cls.family == ChatDeepSeek }

  /** `extract_response_text(response, model)` as defined for extraction: `isinstance` checks on
      Gemini and on the two chat classes; any other model gives `str(response)`. */
  function ExtractResponseText(response: ModelResponse, cls: ModelClass): (r: string)
    ensures r == response.shown || Some(r) == response.text || Some(r) == response.content
    ensures cls.family == GoogleGenerativeAI && response.text.Some? ==> Some(r) == response.text
    ensures ChatFamily(cls) && response.content.Some? ==> Some(r) == response.content
    ensures cls.family == GoogleGenerativeAI && response.text.None? ==> r == response.shown
    ensures ChatFamily(cls) && response.content.None? ==> r == response.shown
    ensures cls.family != GoogleGenerativeAI && !ChatFamily(cls) ==> r == response.shown
  {
    match cls.family
    case GoogleGenerativeAI => if response.text.Some? then response.text.value else response.shown
    case ChatOpenAI => if response.content.Some? then response.content.value else response.shown
    case ChatDeepSeek => if response.content.Some? then response.content.value else response.shown
    case _ => response.shown
  }

  /** The extraction and enhancement versions agree except on completion models, whose reply
      the enhancer reads from `.content` and extraction shows with `str()`. */
  lemma {:induction false} ResponseTextVersions(response: ModelResponse, cls: ModelClass)
    ensures cls.family != OpenAI ==> ExtractResponseText(response, cls) == Enhance.ExtractResponseText(response, cls)
    ensures cls.family == OpenAI ==> ExtractResponseText(response, cls) == response.shown
    ensures cls.family == OpenAI && response.content.Some? ==>
      Enhance.ExtractResponseText(response, cls) == response.content.value
  {
  }

  // ------------------------------------------------- convert_pdf_to_json_schema

  /** What `extract_text_and_hyperlinks` returns. */
  datatype PdfText = PdfText(text: string, hyperlinks: seq<Json>)

  const NoTextError := "No text could be extracted from the PDF"
  const StructureError := "Invalid JSON structure - missing required steps (Step1, Step2, Step3)"

  function ErrorDict(message: string): (r: Dict)
    ensures Keys(r) == ["error"]
  {
    [Member("error", Str(message))]
  }

  predicate IsErrorDict(r: Dict) { |r| == 1 && r[0].key == "error" && r[0].value.Str? }

  /** No three backticks in a row. */
  predicate FenceFree(s: string) {
    forall i :: 0 <= i < |s| - 2 ==> !(s[i] == '`' && s[i + 1] == '`' && s[i + 2] == '`')
  }

  /** Deleting every "```" leaves none: a run of backticks loses three at a time. */
  lemma {:induction false} DeleteFencesFree(s: string)
    ensures FenceFree(ReplaceAll(s, "```", ""))
    decreases |s|
  {
    var r := ReplaceAll(s, "```", "");
    if |s| >= 3 {
      if s[..3] == "```" {
        DeleteFencesFree(s[3..]);
      } else {
        var r' := ReplaceAll(s[1..], "```", "");
        DeleteFencesFree(s[1..]);
        assert r == [s[0]] + r';
        if s[0] == '`' && |r'| >= 2 && r'[0] == '`' && r'[1] == '`' {
          DeletedTwoTicks(s[1..]);
          assert false;
        }
        forall i | 0 <= i < |r| - 2 ensures !(r[i] == '`' && r[i + 1] == '`' && r[i + 2] == '`') {
          if i > 0 {
            assert r[i] == r'[i - 1] && r[i + 1] == r'[i] && r[i + 2] == r'[i + 1];
          }
        }
      }
    }
  }

  /** What is left starts with a backtick only where the text did. */
  lemma {:induction false} DeletedTick(t: string)
    requires var r := ReplaceAll(t, "```", ""); r != [] && r[0] == '`'
    ensures t != [] && t[0] == '`'
  {
    if |t| >= 3 && t[..3] == "```" {
      assert t[0] == t[..3][0];
    }
  }

  lemma {:induction false} DeletedTwoTicks(t: string)
    requires var r := ReplaceAll(t, "```", ""); |r| >= 2 && r[0] == '`' && r[1] == '`'
    ensures |t| >= 2 && t[0] == '`' && t[1] == '`'
  {
    if |t| >= 3 && t[..3] == "```" {
      assert t[0] == t[..3][0] && t[1] == t[..3][1];
    } else {
      DeletedTick(t);
      var r' := ReplaceAll(t[1..], "```", "");
      if |t| >= 3 {
        assert ReplaceAll(t, "```", "") == [t[0]] + r';
      }
      DeletedTick(t[1..]);
    }
  }

  /** `response_text.replace('```json', '').replace('```', '').strip()` */
  function CleanedReply(text: string): string {
    Strip(ReplaceAll(ReplaceAll(text, "```json", ""), "```", ""))
  }

  /** No fence is left in the cleaned reply. */
  lemma {:induction false} CleanedReplyFenceFree(text: string)
    ensures FenceFree(CleanedReply(text))
  {
    var t := ReplaceAll(text, "```json", "");
    DeleteFencesFree(t);
    StripFenceFree(ReplaceAll(t, "```", ""));
  }

  lemma {:induction false} StripFenceFree(s: string)
    requires FenceFree(s)
    ensures FenceFree(Strip(s))
  {
    var a := LeadingSpaces(s);
    var r := Strip(s);
    assert forall i :: 0 <= i < |r| ==> r[i] == s[a + i];
  }

  /** A text without backticks, followed by a pattern starting with one, loses exactly the
      pattern. */
  lemma {:induction false} DeleteTrailing(d: string, pat: string)
    requires |pat| > 0 && pat[0] !in d
    ensures ReplaceAll(d + pat, pat, "") == d
    decreases |d|
  {
    if d == [] {
      assert d + pat == pat + [];
      ReplaceAllLeading([], pat, "");
    } else {
      assert (d + pat)[0] == d[0] != pat[0];
      assert (d + pat)[1..] == d[1..] + pat;
      DeleteTrailing(d[1..], pat);
      assert d == [d[0]] + d[1..];
    }
  }

  /** A reply fenced as a JSON code block is cleaned down to its contents. */
  lemma {:induction false} FencedReplyCleaned(d: string)
    requires '`' !in d
    ensures CleanedReply("```json" + d + "```") == Strip(d)
  {
    var t := d + "```";
    assert "```json" + d + "```" == "```json" + t;
    ReplaceAllLeading(t, "```json", "");
    assert !Contains(t, "```json") by {
      forall i: nat ensures !OccursAt(t, "```json", i) {
        if i + 7 <= |t| {
          assert i < |d| && t[i] == d[i];
          assert t[i..i + 7][0] == t[i] != '`';
        }
      }
    }
    ReplaceAllAbsent(t, "```json", "");
    assert "" + t == t;
    DeleteTrailing(d, "```");
  }

  /** The decision taken on the cleaned reply: the decoder's error, a structure error when the
      value is not a dictionary with `basics`, or the null-cleaned dictionary. */
  function ParseExtraction(codec: Codec, cleaned: string): (r: Dict)
    ensures IsErrorDict(r) || (HasKey(r, "basics") && NullFree(Obj(r)))
    ensures codec.Valid() ==> WellFormed(Obj(r))
  {
    match codec.loads(cleaned)
    case DecodeError(m) => ErrorDict("Invalid JSON response: " + m)
    case Parsed(v) =>
      var c := RemoveNullValues(v);
      if !c.Obj? || !HasKey(c.fields, "basics") then ErrorDict(StructureError) else c.fields
  }

  function ExtractionFailed(message: string): string { "Extraction failed: " + message }

  /** `convert_pdf_to_json_schema(pdf_content)`, given what `SimpleModelManager().get_model()`
      and `extract_text_and_hyperlinks` produced: either an error dictionary or a dictionary with
      `basics` free of nulls. */
  function ConvertPdfToJsonSchema(codec: Codec, model: Attempt<LanguageModel>, pdf: Attempt<PdfText>): (r: Dict)
    ensures IsErrorDict(r) || (HasKey(r, "basics") && NullFree(Obj(r)))
    ensures codec.Valid() ==> WellFormed(Obj(r))
  {
    if model.Raised? then ErrorDict(ExtractionFailed(model.message))
    else if pdf.Raised? then ErrorDict(ExtractionFailed(pdf.message))
    else if Strip(pdf.value.text) == [] then ErrorDict(NoTextError)
    else
      var prompt := CreateExtractionPrompt(codec, pdf.value.text, pdf.value.hyperlinks);
      match model.value.invoke(prompt)
      case Raised(m) => ErrorDict(ExtractionFailed(m))
      case Ok(response) =>
        if response.completionTokens.Raised? then ErrorDict(ExtractionFailed(response.completionTokens.message))
        else ParseExtraction(codec, CleanedReply(ExtractResponseText(response, model.value.cls)))
  }

  /** An error dictionary and a result with `basics` are never confused. */
  lemma {:induction false} OutcomesDisjoint(r: Dict)
    requires IsErrorDict(r)
    ensures !HasKey(r, "basics")
  {
    assert r[0].key != "basics";
    assert Get(r[1..], "basics") == None;
  }

  /** The four exceptions the two `except Exception` handlers catch: obtaining the model,
      reading the PDF, the model call and the token-usage lookup each end in
      `Extraction failed: ` followed by the exception's text. */
  lemma {:induction false} FailuresReported(codec: Codec, model: Attempt<LanguageModel>, pdf: Attempt<PdfText>)
    ensures var r := ConvertPdfToJsonSchema(codec, model, pdf);
      && (model.Raised? ==> r == ErrorDict(ExtractionFailed(model.message)))
      && (model.Ok? && pdf.Raised? ==> r == ErrorDict(ExtractionFailed(pdf.message)))
      && (model.Ok? && pdf.Ok? && Strip(pdf.value.text) != [] ==>
            var call := model.value.invoke(CreateExtractionPrompt(codec, pdf.value.text, pdf.value.hyperlinks));
            && (call.Raised? ==> r == ErrorDict(ExtractionFailed(call.message)))
            && (call.Ok? && call.value.completionTokens.Raised? ==>
                  r == ErrorDict(ExtractionFailed(call.value.completionTokens.message))))
  {
  }

  /** A model that replies with a plain string has no `response_metadata`, so the token-usage
      lookup raises and the extraction fails, whatever the string holds: even a valid résumé
      is never returned. */
  lemma {:induction false} PlainReplyFails(codec: Codec, model: LanguageModel, pdf: PdfText, s: string)
    requires Strip(pdf.text) != []
    requires model.invoke(CreateExtractionPrompt(codec, pdf.text, pdf.hyperlinks)) == Ok(PlainReply(s))
    ensures var r := ConvertPdfToJsonSchema(codec, Ok(model), Ok(pdf));
      r == ErrorDict(ExtractionFailed(PlainReply(s).completionTokens.message)) && !HasKey(r, "basics")
  {
    FailuresReported(codec, Ok(model), Ok(pdf));
    OutcomesDisjoint(ConvertPdfToJsonSchema(codec, Ok(model), Ok(pdf)));
  }

  /** Text that is empty or whitespace only is refused before the model is called. */
  lemma {:induction false} BlankTextRefused(codec: Codec, model: LanguageModel, pdf: PdfText)
    requires forall k :: 0 <= k < |pdf.text| ==> IsSpace(pdf.text[k])
    ensures ConvertPdfToJsonSchema(codec, Ok(model), Ok(pdf)) == ErrorDict(NoTextError)
  {
    StripEmptyIffBlank(pdf.text);
  }

  /** What the model returned for a résumé with some text, when the call and the token lookup
      succeed. */
  predicate Replied(codec: Codec, model: LanguageModel, pdf: PdfText, response: ModelResponse) {
    && Strip(pdf.text) != []
    && model.invoke(CreateExtractionPrompt(codec, pdf.text, pdf.hyperlinks)) == Ok(response)
    && response.completionTokens.Ok?
  }

  /** Once the model has replied, the outcome is the decision on the cleaned reply text. */
  lemma {:induction false} RepliedOutcome(codec: Codec, model: LanguageModel, pdf: PdfText, response: ModelResponse)
    requires Replied(codec, model, pdf, response)
    ensures ConvertPdfToJsonSchema(codec, Ok(model), Ok(pdf))
      == ParseExtraction(codec, CleanedReply(ExtractResponseText(response, model.cls)))
  {
  }

  /** A reply the decoder rejects gives its message back. */
  lemma {:induction false} UndecodableReply(codec: Codec, model: LanguageModel, pdf: PdfText, response: ModelResponse)
    requires Replied(codec, model, pdf, response)
    requires codec.loads(CleanedReply(ExtractResponseText(response, model.cls))).DecodeError?
    ensures ConvertPdfToJsonSchema(codec, Ok(model), Ok(pdf))
      == ErrorDict("Invalid JSON response: " + codec.loads(CleanedReply(ExtractResponseText(response, model.cls))).message)
  {
    RepliedOutcome(codec, model, pdf, response);
  }

  /** A decoded reply is refused exactly when it is not a dictionary with `basics`: the check
      on the cleaned value is a check on the decoded one. */
  lemma {:induction false} StructureChecked(codec: Codec, model: LanguageModel, pdf: PdfText, response: ModelResponse, v: Json)
    requires Replied(codec, model, pdf, response)
    requires codec.loads(CleanedReply(ExtractResponseText(response, model.cls))) == Parsed(v)
    ensures !v.Obj? || !HasKey(v.fields, "basics") ==> ConvertPdfToJsonSchema(codec, Ok(model), Ok(pdf)) == ErrorDict(StructureError)
    ensures v.Obj? && HasKey(v.fields, "basics") ==> ConvertPdfToJsonSchema(codec, Ok(model), Ok(pdf)) == RemoveNullValues(v).fields
  {
    RepliedOutcome(codec, model, pdf, response);
    if v.Obj? {
      RemoveNullsKeepsKey(v.fields, "basics");
    }
  }

  /** A model that answers with the JSON of a résumé in a code fence has that résumé, nulls
      removed, as the result. */
  lemma {:induction false} FencedReplyRoundTrip(codec: Codec, model: LanguageModel, pdf: PdfText, response: ModelResponse, v: Json)
    requires codec.Valid() && WellFormed(v) && v.Obj? && HasKey(v.fields, "basics")
    requires Replied(codec, model, pdf, response)
    requires ExtractResponseText(response, model.cls) == "```json" + codec.dumps(v) + "```"
    requires '`' !in codec.dumps(v) && Strip(codec.dumps(v)) == codec.dumps(v)
    ensures ConvertPdfToJsonSchema(codec, Ok(model), Ok(pdf)) == RemoveNullValues(v).fields
    ensures NullFree(v) ==> ConvertPdfToJsonSchema(codec, Ok(model), Ok(pdf)) == v.fields
  {
    FencedReplyCleaned(codec.dumps(v));
    StructureChecked(codec, model, pdf, response, v);
    if NullFree(v) {
      RemoveNullsFixesNullFree(v);
    }
  }
}

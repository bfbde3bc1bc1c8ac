/** The section-wise résumé enhancer: one model call per section, the reply cleaned and parsed,
    the original section kept whenever that fails; the orchestrator that runs it over every
    section of a résumé, with or without a `details` wrapper. */
module Enhance {
  import opened PyText
  import opened JsonData
  import opened Llm
  import opened Prompts
  import opened Sanitize

  /** `isinstance(model, (ChatOpenAI, ChatDeepSeek, OpenAI))` */
  predicate ReadsContent(cls: ModelClass) {
    cls.family == ChatOpenAI || cls.family == ChatDeepSeek || cls.family == OpenAI
  }

  /** `extract_response_text(response, model)` as defined in the enhancer (which never calls it):
      `isinstance` checks, so subclasses count. */
  function ExtractResponseText(response: ModelResponse, cls: ModelClass): (r: string)
    ensures r == response.shown || Some(r) == response.text || Some(r) == response.content
    ensures cls.family == GoogleGenerativeAI && response.text.Some? ==> Some(r) == response.text
    ensures ReadsContent(cls) && response.content.Some? ==> Some(r) == response.content
    ensures cls.family == GoogleGenerativeAI && response.text.None? ==> r == response.shown
    ensures ReadsContent(cls) && response.content.None? ==> r == response.shown
    ensures cls.family == OtherModel ==> r == response.shown
  {
    match cls.family
    case GoogleGenerativeAI => if response.text.Some? then response.text.value else response.shown
    case ChatOpenAI => if response.content.Some? then response.content.value else response.shown
    case ChatDeepSeek => if response.content.Some? then response.content.value else response.shown
    case OpenAI => if response.content.Some? then response.content.value else response.shown
    case OtherModel => response.shown
  }

  /** `enhance_resume_section(...)`: the model call raising, the reply lacking `.content`, or a
      falsy parse all give back the original section. */
  function EnhanceResumeSection(codec: Codec, model: LanguageModel, name: string, data: Json, jd: Json, templateType: string): (r: Json)
    ensures r == data || Truthy(r)
  {
    match model.invoke(CreateSectionPrompt(codec, name, data, jd, templateType))
    case Raised(_) => data
    case Ok(response) =>
      match response.content
      case None => data
      case Some(text) =>
        var enhanced := ParseJsonSafely(codec, CleanLlmResponse(codec, text));
        if !Truthy(enhanced) then data else enhanced
  }

  /** The reply text the section enhancer reads, when the call returns one. */
  function ReplyText(codec: Codec, model: LanguageModel, name: string, data: Json, jd: Json, templateType: string): Option<string> {
    match model.invoke(CreateSectionPrompt(codec, name, data, jd, templateType))
    case Raised(_) => None
    case Ok(response) => response.content
  }

  /** No data is lost: when the call fails, the reply has no JSON span, the span does not parse
      or parses to a falsy value (among them the two sentinel strings), the section is kept. */
  lemma {:induction false} SectionKeptOnFailure(codec: Codec, model: LanguageModel, name: string, data: Json, jd: Json, templateType: string)
    requires codec.Valid()
    requires var reply := ReplyText(codec, model, name, data, jd, templateType);
      || reply.None?
      || SpanText(reply.value).None?
      || codec.loads(SpanText(reply.value).value).DecodeError?
      || !Truthy(codec.loads(SpanText(reply.value).value).value)
    ensures EnhanceResumeSection(codec, model, name, data, jd, templateType) == data
  {
    var reply := ReplyText(codec, model, name, data, jd, templateType);
    if reply.Some? {
      CleanThenParse(codec, reply.value);
    }
  }

  /** When the reply's JSON span parses to a truthy value, that value replaces the section. */
  lemma {:induction false} SectionReplacedOnSuccess(codec: Codec, model: LanguageModel, name: string, data: Json, jd: Json, templateType: string)
    requires codec.Valid()
    requires var reply := ReplyText(codec, model, name, data, jd, templateType);
      && reply.Some? && SpanText(reply.value).Some?
      && codec.loads(SpanText(reply.value).value).Parsed?
      && Truthy(codec.loads(SpanText(reply.value).value).value)
    ensures EnhanceResumeSection(codec, model, name, data, jd, templateType)
      == codec.loads(SpanText(ReplyText(codec, model, name, data, jd, templateType).value).value).value
  {
    CleanThenParse(codec, ReplyText(codec, model, name, data, jd, templateType).value);
  }

  /** With well-behaved JSON functions, an enhanced section is as well-formed as the original. */
  lemma {:induction false} SectionWellFormed(codec: Codec, model: LanguageModel, name: string, data: Json, jd: Json, templateType: string)
    requires codec.Valid() && WellFormed(data)
    ensures WellFormed(EnhanceResumeSection(codec, model, name, data, jd, templateType))
  {
    var reply := ReplyText(codec, model, name, data, jd, templateType);
    if reply.Some? {
      var t := RepairText(CleanLlmResponse(codec, reply.value));
      assert codec.loads(t).Parsed? ==> WellFormed(codec.loads(t).value);
      assert codec.loads(CleanLlmResponse(codec, reply.value)).Parsed? ==> WellFormed(codec.loads(CleanLlmResponse(codec, reply.value)).value);
    }
  }

  /** The sections a résumé holds, and whether they sat under a `details` wrapper. */
  datatype Body = Body(sections: Dict, wrapped: bool)

  /** `'details' in json_data and isinstance(json_data['details'], dict)` */
  predicate HasDetailsWrapper(d: Dict) {
    HasKey(d, "details") && Get(d, "details").value.Obj?
  }

  function ResumeBody(d: Dict): (b: Body)
    ensures b.wrapped <==> HasDetailsWrapper(d)
    ensures b.wrapped ==> Get(d, "details") == Some(Obj(b.sections))
    ensures !b.wrapped ==> b.sections == d
  {
    if HasDetailsWrapper(d) then Body(Get(d, "details").value.fields, true) else Body(d, false)
  }

  /** `{name: f(name, data) for name, data in sections.items()}` */
  function MapSections(sections: Dict, f: (string, Json) -> Json): (r: Dict)
    ensures Keys(r) == Keys(sections)
    ensures forall i :: 0 <= i < |r| ==> r[i].value == f(sections[i].key, sections[i].value)
  {
    seq(|sections|, i requires 0 <= i < |sections| => Member(sections[i].key, f(sections[i].key, sections[i].value)))
  }

  /** The section enhancer with the call's other arguments fixed. */
  function SectionEnhancer(codec: Codec, model: LanguageModel, jd: Json, templateType: string): (string, Json) -> Json {
    (name: string, data: Json) => EnhanceResumeSection(codec, model, name, data, jd, templateType)
  }

  /** Section names are distinct, with or without a wrapper. */
  lemma {:induction false} SectionNamesDistinct(d: Dict)
    requires WellFormed(Obj(d))
    ensures DistinctKeys(ResumeBody(d).sections)
  {
    if HasDetailsWrapper(d) {
      GetFound(d, "details");
      var i :| 0 <= i < |d| && d[i] == Member("details", Get(d, "details").value);
      assert WellFormed(d[i].value);
    }
  }

  /** Every section enhanced, in the original order. */
  function EnhanceSections(codec: Codec, model: LanguageModel, sections: Dict, jd: Json, templateType: string): Dict {
    MapSections(sections, SectionEnhancer(codec, model, jd, templateType))
  }

  /** The result assembled from the enhanced sections: re-wrapped under `details`, with `JD`
      copied over when present, when the input was wrapped; the sections themselves otherwise. */
  function Rewrap(d: Dict, enhanced: Dict, wrapped: bool): Dict {
    if !wrapped then enhanced
    else
      var result := [Member("details", Obj(enhanced))];
      if HasKey(d, "JD") then Put(result, "JD", Get(d, "JD").value) else result
  }

  /** What `enhance_resume_by_sections` returns. */
  function EnhancedDocument(codec: Codec, model: LanguageModel, d: Dict, jd: Json, templateType: string): Dict {
    var b := ResumeBody(d);
    Rewrap(d, EnhanceSections(codec, model, b.sections, jd, templateType), b.wrapped)
  }

  /** A pending `enhance_resume_section` task for one section. */
  datatype Task = Task(section: string, data: Json)

  /** `enhance_resume_by_sections(json_data, model, job_description, template_type)`. The tasks
      share no state, so running them one after the other gives what running them concurrently
      gives. */
  method EnhanceResumeBySections(codec: Codec, d: Dict, model: LanguageModel, jd: Json, templateType: string)
    returns (result: Dict)
    requires WellFormed(Obj(d))
    ensures result == EnhancedDocument(codec, model, d, jd, templateType)
  {
    var resumeData: Dict;
    var hasDetailsWrapper: bool;
    if HasKey(d, "details") && Get(d, "details").value.Obj? {
      resumeData := Get(d, "details").value.fields;
      hasDetailsWrapper := true;
    } else {
      resumeData := d;
      hasDetailsWrapper := false;
    }
    SectionNamesDistinct(d);

    var enhancedSections := RunSectionTasks(resumeData, SectionEnhancer(codec, model, jd, templateType));

    if hasDetailsWrapper {
      result := [Member("details", Obj(enhancedSections))];
      if HasKey(d, "JD") {
        result := Put(result, "JD", Get(d, "JD").value);
      }
    } else {
      result := enhancedSections;
    }
  }

  /** The `enhancement_tasks` dictionary (one `asyncio.create_task` per section), then each task
      awaited in turn and its result collected into `enhanced_sections`. Section names are distinct, so each assignment adds
      an entry. */
  method RunSectionTasks(resumeData: Dict, enhance: (string, Json) -> Json) returns (enhancedSections: Dict)
    requires DistinctKeys(resumeData)
    ensures enhancedSections == MapSections(resumeData, enhance)
  {
    var tasks: seq<Task> := [];
    var i := 0;
    while i < |resumeData|
      invariant 0 <= i <= |resumeData|
      invariant |tasks| == i
      invariant forall k :: 0 <= k < i ==> tasks[k] == Task(resumeData[k].key, resumeData[k].value)
    {
      tasks := tasks + [Task(resumeData[i].key, resumeData[i].value)];
      i := i + 1;
    }

    enhancedSections := [];
    var j := 0;
    while j < |tasks|
      invariant 0 <= j <= |tasks|
      invariant enhancedSections == MapSections(resumeData[..j], enhance)
    {
      var t := tasks[j];
      var outcome := enhance(t.section, t.data);
      MapSectionsStep(resumeData, j, enhance);
      enhancedSections := Put(enhancedSections, t.section, outcome);
      j := j + 1;
    }
    assert resumeData[..|resumeData|] == resumeData;
  }

  /** Collecting one more awaited task: with distinct section names, the assignment appends. */
  lemma {:induction false} MapSectionsStep(sections: Dict, j: nat, f: (string, Json) -> Json)
    requires DistinctKeys(sections) && j < |sections|
    ensures Put(MapSections(sections[..j], f), sections[j].key, f(sections[j].key, sections[j].value))
            == MapSections(sections[..j + 1], f)
  {
    var before := MapSections(sections[..j], f);
    var outcome := f(sections[j].key, sections[j].value);
    assert !HasKey(before, sections[j].key) by {
      forall k | 0 <= k < j ensures Keys(before)[k] != sections[j].key {
        assert Keys(before)[k] == sections[k].key;
      }
      GetFound(before, sections[j].key);
    }
    PutFresh(before, sections[j].key, outcome);
    var after := MapSections(sections[..j + 1], f);
    assert |after| == j + 1;
    forall k | 0 <= k < j + 1 ensures after[k] == (before + [Member(sections[j].key, outcome)])[k] {
      assert sections[..j + 1][k] == sections[k];
      if k < j {
        assert sections[..j][k] == sections[k];
      }
    }
  }

  /** Assigning a key that is not yet present appends it. */
  lemma {:induction false} PutFresh(d: Dict, k: string, v: Json)
    requires !HasKey(d, k)
    ensures Put(d, k, v) == d + [Member(k, v)]
  {
    if d != [] {
      PutFresh(d[1..], k, v);
      assert d == [d[0]] + d[1..];
    }
  }

  /** Without a wrapper, the result has the input's keys in the input's order (`JD` included,
      as one more section), each mapped to its enhanced section. */
  lemma {:induction false} UnwrappedShape(codec: Codec, model: LanguageModel, d: Dict, jd: Json, templateType: string)
    requires !HasDetailsWrapper(d)
    ensures var r := EnhancedDocument(codec, model, d, jd, templateType);
      && Keys(r) == Keys(d)
      && forall i :: 0 <= i < |r| ==> r[i].value == EnhanceResumeSection(codec, model, d[i].key, d[i].value, jd, templateType)
  {
  }

  /** With a `details` wrapper, the result is `details` with the enhanced sections in their
      order, then `JD` unchanged exactly when the input has it; no other top-level key. */
  lemma {:induction false} WrappedShape(codec: Codec, model: LanguageModel, d: Dict, jd: Json, templateType: string)
    requires HasDetailsWrapper(d)
    ensures var r := EnhancedDocument(codec, model, d, jd, templateType);
      && Keys(r) == (if HasKey(d, "JD") then ["details", "JD"] else ["details"])
      && Get(r, "details") == Some(Obj(EnhanceSections(codec, model, Get(d, "details").value.fields, jd, templateType)))
      && Get(r, "JD") == Get(d, "JD")
  {
    var sections := EnhanceSections(codec, model, Get(d, "details").value.fields, jd, templateType);
    var base := [Member("details", Obj(sections))];
    if HasKey(d, "JD") {
      PutKeys(base, "JD", Get(d, "JD").value);
      assert !HasKey(base, "JD");
    } else {
      assert Get(base, "JD") == None;
    }
  }

  /** Enhancing keeps a document well-formed. */
  lemma {:induction false} EnhanceSectionsWellFormed(codec: Codec, model: LanguageModel, sections: Dict, jd: Json, templateType: string)
    requires codec.Valid() && WellFormed(Obj(sections))
    ensures WellFormed(Obj(EnhanceSections(codec, model, sections, jd, templateType)))
    decreases |sections|
  {
    var r := EnhanceSections(codec, model, sections, jd, templateType);
    forall i | 0 <= i < |r| ensures WellFormed(r[i].value) {
      SectionWellFormed(codec, model, sections[i].key, sections[i].value, jd, templateType);
    }
    forall i, j | 0 <= i < j < |r| ensures r[i].key != r[j].key {
      assert Keys(r)[i] == Keys(sections)[i];
      assert Keys(r)[j] == Keys(sections)[j];
    }
  }

  /** A second pass over an already-enhanced résumé sees the same top-level keys, provided the
      input either had a `details` wrapper or no `details` key at all (a non-dict `details`
      could be turned into a dict by the model, which the next pass would take for a wrapper). */
  lemma {:induction false} ReenhanceKeepsKeys(codec: Codec, model: LanguageModel, d: Dict, jd: Json, templateType: string)
    requires HasDetailsWrapper(d) || !HasKey(d, "details")
    ensures var once := EnhancedDocument(codec, model, d, jd, templateType);
      Keys(EnhancedDocument(codec, model, once, jd, templateType)) == Keys(once)
  {
    var once := EnhancedDocument(codec, model, d, jd, templateType);
    if HasDetailsWrapper(d) {
      WrappedShape(codec, model, d, jd, templateType);
      assert HasKey(once, "details");
      assert HasDetailsWrapper(once);
      WrappedShape(codec, model, once, jd, templateType);
      assert HasKey(once, "JD") <==> HasKey(d, "JD");
    } else {
      UnwrappedShape(codec, model, d, jd, templateType);
      assert !HasKey(once, "details") by {
        GetFound(d, "details");
        GetFound(once, "details");
        assert Keys(once) == Keys(d);
      }
      UnwrappedShape(codec, model, once, jd, templateType);
    }
  }

  /** A model whose every call raises leaves every section as it was. */
  lemma {:induction false} FailingModelKeepsSections(codec: Codec, model: LanguageModel, sections: Dict, jd: Json, templateType: string)
    requires forall p :: model.invoke(p).Raised?
    ensures EnhanceSections(codec, model, sections, jd, templateType) == sections
  {
    var r := EnhanceSections(codec, model, sections, jd, templateType);
    forall i | 0 <= i < |r| ensures r[i] == sections[i] {
      assert Keys(r)[i] == Keys(sections)[i];
    }
  }

  /** The job description `enhance_resume_with_model` passes on: the explicit one unless it is
      falsy, else the résumé's `JD` entry when it has one. */
  function EffectiveJobDescription(jd: Json, d: Dict): (r: Json)
    ensures Truthy(jd) ==> r == jd
    ensures !Truthy(jd) && HasKey(d, "JD") ==> Get(d, "JD") == Some(r)
    ensures !Truthy(jd) && !HasKey(d, "JD") ==> r == jd
  {
    if !Truthy(jd) && HasKey(d, "JD") then Get(d, "JD").value else jd
  }

  /** `enhance_resume_with_model(json_data, job_description, template_type)`; `model` is what
      obtaining the configured model gave, or the exception it raised. */
  method EnhanceResumeWithModel(codec: Codec, model: Attempt<LanguageModel>, d: Dict, jd: Json, templateType: string)
    returns (result: Dict)
    requires WellFormed(Obj(d))
    ensures model.Raised? ==> result == d
    ensures model.Ok? ==> result == EnhancedDocument(codec, model.value, d, EffectiveJobDescription(jd, d), templateType)
  {
    match model
    case Raised(_) =>
      result := d;
    case Ok(m) =>
      var effective := jd;
      if !Truthy(effective) && HasKey(d, "JD") {
        effective := Get(d, "JD").value;
      }
      result := EnhanceResumeBySections(codec, d, m, effective, templateType);
  }
}

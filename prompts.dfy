/** The prompt builder of the section enhancer: the style-template table, the section-template
    table and `create_section_prompt`. The instruction prose is abridged to a few words per
    template, and indentation is dropped; the layout of every template (where the rule, the job
    description and the section content go, and the closing directive) is kept. */
module Prompts {
  import opened PyText
  import opened JsonData

  /** A `str.format` template, already split into literal text and `{name}` fields. */
  datatype Piece = Lit(text: string) | Hole(name: string)

  predicate HolesWithin(ps: seq<Piece>, names: set<string>) {
    forall i :: 0 <= i < |ps| && ps[i].Hole? ==> ps[i].name in names
  }

  function Render(p: Piece, env: map<string, string>): string
    requires p.Hole? ==> p.name in env
  {
    match p
    case Lit(t) => t
    case Hole(h) => env[h]
  }

  /** `template.format(**env)` */
  function Format(ps: seq<Piece>, env: map<string, string>): string
    requires HolesWithin(ps, env.Keys)
  {
    if ps == [] then [] else Render(ps[0], env) + Format(ps[1..], env)
  }

  lemma {:induction false} FormatAppend(a: seq<Piece>, b: seq<Piece>, env: map<string, string>)
    requires HolesWithin(a, env.Keys) && HolesWithin(b, env.Keys)
    ensures HolesWithin(a + b, env.Keys)
    ensures Format(a + b, env) == Format(a, env) + Format(b, env)
  {
    if a == [] {
      assert a + b == b;
    } else {
      FormatAppend(a[1..], b, env);
      assert (a + b)[0] == a[0];
      assert (a + b)[1..] == a[1..] + b;
      assert Format(a + b, env) == Render(a[0], env) + Format(a[1..] + b, env);
    }
  }

  /** Every piece of a template, literal or substituted, appears in the formatted text. */
  lemma {:induction false} FormatShowsPiece(ps: seq<Piece>, env: map<string, string>, i: nat)
    requires HolesWithin(ps, env.Keys) && i < |ps|
    ensures Contains(Format(ps, env), Render(ps[i], env))
  {
    if i == 0 {
      ContainsMiddle([], Render(ps[0], env), Format(ps[1..], env));
      assert Format(ps, env) == [] + Render(ps[0], env) + Format(ps[1..], env);
    } else {
      FormatShowsPiece(ps[1..], env, i - 1);
      assert ps[1..][i - 1] == ps[i];
      assert Format(ps, env) == Render(ps[0], env) + Format(ps[1..], env) + [];
      ContainsGrow(Format(ps[1..], env), Render(ps[i], env), Render(ps[0], env), []);
    }
  }

  /** The six formatting rules every style template defines. */
  const RuleKeys: set<string> :=
    {"summary_length", "experience_length", "education_length", "projects_length", "skills_format", "awards_format"}

  const SimpleRules: map<string, string> := map[
    "summary_length" := "a summary of 45-50 words",
    "experience_length" := "5 bullets of 28-32 words",
    "education_length" := "3 bullets of 10-13 words",
    "projects_length" := "5 bullets of 28-32 words",
    "skills_format" := "4 headers of 4 skills",
    "awards_format" := "20-25 words per award"
  ]

  const SoftwareEngineerRules: map<string, string> := map[
    "summary_length" := "a summary of 55-60 words",
    "experience_length" := "5 technical bullets",
    "education_length" := "short degrees, 3 bullets",
    "projects_length" := "5 bullets, technical terms",
    "skills_format" := "5 categories of 4 skills",
    "awards_format" := "20-25 technical words"
  ]

  /** The substitutions a section prompt adds are not rule names. */
  lemma {:induction false} RuleKeysApart()
    ensures "job_description" !in RuleKeys && "original_content" !in RuleKeys && "section_name" !in RuleKeys
  {
  }

  /** TEMPLATE_PROMPTS */
  const TemplatePrompts: map<string, map<string, string>> :=
    map["simple" := SimpleRules, "software_engineer" := SoftwareEngineerRules]

  /** Both style templates define exactly the six rules. */
  lemma {:induction false} StyleTemplatesDefineAllRules()
    ensures forall t :: t in TemplatePrompts ==> TemplatePrompts[t].Keys == RuleKeys
  {
  }

  /** `TEMPLATE_PROMPTS.get(template_type, TEMPLATE_PROMPTS['simple'])` */
  function ResolveStyle(templateType: string): (r: map<string, string>)
    ensures r.Keys == RuleKeys
    ensures templateType in TemplatePrompts ==> r == TemplatePrompts[templateType]
    ensures templateType !in TemplatePrompts ==> r == SimpleRules
  {
    StyleTemplatesDefineAllRules();
    if templateType in TemplatePrompts then TemplatePrompts[templateType] else TemplatePrompts["simple"]
  }

  /** The closing directive every section prompt carries. */
  const Directive := "Return ONLY the enhanced JSON"

  const JdHeading := "\nJOB DESCRIPTION:\n"
  const ContentHeading := "\nORIGINAL CONTENT:\n"
  const KeepStructure := "\nKeep the structure."

  /** One entry of SECTION_PROMPTS: the section's instructions (which may name one style rule),
      then the shared layout: job description, original content, closing directive. */
  datatype SectionTemplate = SectionTemplate(instructions: seq<Piece>, closing: string)

  function Pieces(t: SectionTemplate): seq<Piece> {
    t.instructions + [Lit(JdHeading), Hole("job_description"), Lit(ContentHeading), Hole("original_content"), Lit(t.closing)]
  }

  /** SECTION_PROMPTS */
  const SectionPrompts: map<string, SectionTemplate> := map[
    "basics" := SectionTemplate([Lit("Enhance the summary: "), Hole("summary_length")], "\n" + Directive + " " + KeepStructure),
    "work" := SectionTemplate([Lit("Enhance the work: "), Hole("experience_length")], "\n" + Directive + KeepStructure),
    "education" := SectionTemplate([Lit("Enhance education: "), Hole("education_length")], "\n" + Directive + KeepStructure),
    "skills" := SectionTemplate([Lit("Enhance skills: "), Hole("skills_format")], "\n" + Directive + KeepStructure),
    "projects" := SectionTemplate([Lit("Enhance projects: "), Hole("projects_length")], "\n" + Directive + KeepStructure),
    "publications" := SectionTemplate([Lit("Enhance publications.")], "\n" + Directive + KeepStructure),
    "awards" := SectionTemplate([Lit("Enhance awards: "), Hole("awards_format")], "\n" + Directive + KeepStructure)
  ]

  /** Every section template names only style rules and ends with the directive. */
  lemma {:induction false} SectionTemplatesWellFormed(name: string)
    requires name in SectionPrompts
    ensures HolesWithin(SectionPrompts[name].instructions, RuleKeys)
    ensures Contains(SectionPrompts[name].closing, Directive)
  {
    var t := SectionPrompts[name];
    if name == "basics" {
      ContainsMiddle("\n", Directive, " " + KeepStructure);
      assert t.closing == "\n" + Directive + (" " + KeepStructure);
    } else {
      ContainsMiddle("\n", Directive, KeepStructure);
    }
  }

  /** `job_description or "Not provided"`, as the template renders it with `str()`. */
  function JobDescriptionText(codec: Codec, jd: Json): string {
    if Truthy(jd) then codec.show(jd) else "Not provided"
  }

  const GenericClosing := "\n" + Directive + "\n"

  /** The fallback f-string for a section name SECTION_PROMPTS does not know. */
  const GenericTemplate: seq<Piece> := [
    Lit("Enhance the "), Hole("section_name"), Lit(" section.\nSame structure."), Lit(JdHeading),
    Hole("job_description"), Lit(ContentHeading), Hole("original_content"), Lit(GenericClosing)
  ]

  /** The substitutions `create_section_prompt` makes: the style rules, the job description, the
      section's JSON and (for the fallback prompt) the section name. */
  function PromptEnv(codec: Codec, name: string, data: Json, jd: Json, templateType: string): (env: map<string, string>)
    ensures env.Keys == RuleKeys + {"job_description", "original_content", "section_name"}
    ensures env["job_description"] == JobDescriptionText(codec, jd)
    ensures env["original_content"] == codec.dumps(data)
    ensures env["section_name"] == name
    ensures forall k :: k in RuleKeys ==> env[k] == ResolveStyle(templateType)[k]
  {
    RuleKeysApart();
    ResolveStyle(templateType)["job_description" := JobDescriptionText(codec, jd)]
      ["original_content" := codec.dumps(data)]["section_name" := name]
  }

  /** The template `create_section_prompt` formats for a section name. */
  function TemplateFor(name: string): (ps: seq<Piece>)
    ensures HolesWithin(ps, RuleKeys + {"job_description", "original_content", "section_name"})
  {
    if name in SectionPrompts then
      SectionTemplatesWellFormed(name);
      Pieces(SectionPrompts[name])
    else GenericTemplate
  }

  /** `create_section_prompt(section_name, section_data, job_description, template_type)` */
  function CreateSectionPrompt(codec: Codec, name: string, data: Json, jd: Json, templateType: string): (r: string)
  {
    Format(TemplateFor(name), PromptEnv(codec, name, data, jd, templateType))
  }

  /** A known section's prompt carries the job description (or "Not provided"), the section's
      JSON, each style rule its template names and the closing directive. */
  lemma {:induction false} KnownSectionPrompt(codec: Codec, name: string, data: Json, jd: Json, templateType: string)
    requires name in SectionPrompts
    ensures Contains(CreateSectionPrompt(codec, name, data, jd, templateType), JobDescriptionText(codec, jd))
    ensures Contains(CreateSectionPrompt(codec, name, data, jd, templateType), codec.dumps(data))
    ensures Contains(CreateSectionPrompt(codec, name, data, jd, templateType), Directive)
    ensures forall i :: (0 <= i < |SectionPrompts[name].instructions| && SectionPrompts[name].instructions[i].Hole?
                         ==> var rule := SectionPrompts[name].instructions[i].name;
                             rule in RuleKeys
                             && Contains(CreateSectionPrompt(codec, name, data, jd, templateType), ResolveStyle(templateType)[rule]))
  {
    var env := PromptEnv(codec, name, data, jd, templateType);
    var t := SectionPrompts[name];
    SectionTemplatesWellFormed(name);
    KnownSectionContents(t, env);
    var r := CreateSectionPrompt(codec, name, data, jd, templateType);
    assert r == Format(Pieces(t), env);
    forall i | 0 <= i < |t.instructions| && t.instructions[i].Hole?
      ensures Contains(r, ResolveStyle(templateType)[t.instructions[i].name])
    {
      assert ResolveStyle(templateType)[t.instructions[i].name] == env[t.instructions[i].name];
    }
  }

  /** The prompt for a section name outside SECTION_PROMPTS names the section and carries the
      job description, the section's JSON and the closing directive. */
  lemma {:induction false} UnknownSectionPrompt(codec: Codec, name: string, data: Json, jd: Json, templateType: string)
    requires name !in SectionPrompts
    ensures Contains(CreateSectionPrompt(codec, name, data, jd, templateType), JobDescriptionText(codec, jd))
    ensures Contains(CreateSectionPrompt(codec, name, data, jd, templateType), codec.dumps(data))
    ensures Contains(CreateSectionPrompt(codec, name, data, jd, templateType), Directive)
    ensures Contains(CreateSectionPrompt(codec, name, data, jd, templateType), name)
  {
    var env := PromptEnv(codec, name, data, jd, templateType);
    assert TemplateFor(name) == GenericTemplate;
    var r := CreateSectionPrompt(codec, name, data, jd, templateType);
    assert r == Format(GenericTemplate, env);
    GenericContents(env);
  }

  lemma {:induction false} KnownSectionContents(t: SectionTemplate, env: map<string, string>)
    requires HolesWithin(t.instructions, RuleKeys) && Contains(t.closing, Directive)
    requires env.Keys == RuleKeys + {"job_description", "original_content", "section_name"}
    ensures HolesWithin(Pieces(t), env.Keys)
    ensures Contains(Format(Pieces(t), env), env["job_description"])
    ensures Contains(Format(Pieces(t), env), env["original_content"])
    ensures Contains(Format(Pieces(t), env), Directive)
    ensures forall i :: (0 <= i < |t.instructions| && t.instructions[i].Hole?
                         ==> Contains(Format(Pieces(t), env), env[t.instructions[i].name]))
  {
    var ps := Pieces(t);
    var r := Format(ps, env);
    var n := |t.instructions|;
    assert ps[n + 1] == Hole("job_description") && ps[n + 3] == Hole("original_content") && ps[n + 4] == Lit(t.closing);
    FormatShowsPiece(ps, env, n + 1);
    FormatShowsPiece(ps, env, n + 3);
    FormatShowsPiece(ps, env, n + 4);
    ContainsIn(r, t.closing, Directive);
    forall i | 0 <= i < n && t.instructions[i].Hole?
      ensures Contains(r, env[t.instructions[i].name])
    {
      assert ps[i] == t.instructions[i];
      FormatShowsPiece(ps, env, i);
    }
  }

  lemma {:induction false} GenericContents(env: map<string, string>)
    requires env.Keys == RuleKeys + {"job_description", "original_content", "section_name"}
    ensures Contains(Format(GenericTemplate, env), env["job_description"])
    ensures Contains(Format(GenericTemplate, env), env["original_content"])
    ensures Contains(Format(GenericTemplate, env), env["section_name"])
    ensures Contains(Format(GenericTemplate, env), Directive)
  {
    var ps := GenericTemplate;
    var r := Format(ps, env);
    FormatShowsPiece(ps, env, 1);
    FormatShowsPiece(ps, env, 4);
    FormatShowsPiece(ps, env, 6);
    FormatShowsPiece(ps, env, 7);
    ContainsMiddle("\n", Directive, "\n");
    ContainsIn(r, GenericClosing, Directive);
  }

  /** A text inside a substring of `r` is inside `r`. */
  lemma {:induction false} ContainsIn(r: string, mid: string, sub: string)
    requires Contains(r, mid) && Contains(mid, sub)
    ensures Contains(r, sub)
  {
    var i: nat :| OccursAt(r, mid, i);
    var j: nat :| OccursAt(mid, sub, j);
    assert forall k :: 0 <= k < |sub| ==> sub[k] == mid[j + k] == r[i + j + k];
    assert r[i + j..i + j + |sub|] == sub;
    assert OccursAt(r, sub, i + j);
  }
}

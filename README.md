# Résumé enhancement, conversion and extraction — a Dafny model

This project models the three data-processing pieces of a résumé tool that works through a
language model:

- **The section-wise enhancer** (`utils/enhance.py`) builds one prompt per résumé section. It
  uses a style table (`TEMPLATE_PROMPTS`), a section table (`SECTION_PROMPTS`) and a generic
  prompt for other section names. It sends the prompt to the model and cleans the reply:
  `clean_llm_response` cuts out the greedy `{…}`/`[…]` span, drops newlines and
  re-serialises it. `parse_json_safely` parses the result, after a lenient repair if needed.
  The original section is kept whenever any of this fails. The orchestrator
  (`enhance_resume_by_sections`, `enhance_resume_with_model`) runs the enhancer over every
  section. It handles a `details` wrapper and a `JD` entry.
- **The JSON-résumé to Typst-configuration converter** (`utils/resume_converter.py`, class
  `EnhancedJSONToConfigConverter`) fills a `config_data` dictionary one `convert_*` step at a
  time. It covers contacts, jobs, education, skills (sorted into buckets by category name),
  achievements and the objective. Its helpers format dates, extract years and pick tags.
- **Extraction post-processing** (`utils/extract.py`) covers:
  - whitespace and NUL normalisation (`clean_text`);
  - the extraction prompt and its schema template;
  - recursive null removal;
  - the mapping from provider to name;
  - reading the reply text;
  - the decision logic of `convert_pdf_to_json_schema`: blank text, fence removal, parsing,
    the `basics` check and the failure paths.

Modules:

| file | module | contents |
|---|---|---|
| `pytext.dfy` | `PyText` | Python `str` semantics used by the source: `strip`, `split`, `join`, `replace`, `lower`, `in`, `split(sep)` |
| `json.dfy` | `JsonData` | the `Json` value type; dictionaries as key-ordered member sequences (`get`, `dict[k] = v`); `Attempt` (a value or a raised exception); `Codec`, whose `loads`, `dumps` and `str` are uninterpreted but obey the laws in `Codec.Valid()` |
| `llm.dfy` | `Llm` | model classes, model objects (an uninterpreted `ainvoke`) and reply objects |
| `prompts.dfy` | `Prompts` | the style and section tables and `create_section_prompt` |
| `sanitize.dfy` | `Sanitize` | `clean_llm_response` and `parse_json_safely` |
| `enhance.dfy` | `Enhance` | `enhance_resume_section`, `enhance_resume_by_sections` (imperative), `enhance_resume_with_model` (imperative) |
| `rules.dfy` | `ConverterRules` | `_format_date`, `_extract_year_from_date`, `_extract_tags_from_highlights`, and `Runtime` (the random generator and `set` order) |
| `converter.dfy` | `ResumeConverter` | the class `Converter`. Its fields are the entries of `config_data`, and each `convert_*` method updates them. Each method is proved against a function of the old state. |
| `extract.dfy` | `Extract` | everything from `utils/extract.py` above |

JSON parsing and serialisation, the model call, `random.randint` and `set` iteration order are
not implemented. They are parameters (`Codec`, `LanguageModel`, `Runtime`), and only the laws
they obey are assumed as preconditions. Those laws are:

- `loads(dumps(v)) == v` for well-formed `v`;
- `loads` rejects text that cannot begin a JSON value;
- `loads` yields well-formed values;
- `randint(3, 5)` lies in 3..5;
- the order of a `set` lists each element once.

Where the code and the description of the system differ, the model follows the code:

- The extraction module's `extract_response_text` (`utils/extract.py:162-168`) reads
  `.content` only for `ChatOpenAI` and `ChatDeepSeek`. A plain `OpenAI` completion model falls
  through to `str(response)`. The enhancer's copy (`utils/enhance.py:245-251`) also includes
  `OpenAI`. `Extract.ResponseTextVersions` states the difference.
- `enhance_resume_section` does not call `extract_response_text`. It reads `response.content`,
  so a reply without that attribute raises and the section is kept.
- `clean_text` is defined but never called by `convert_pdf_to_json_schema`. The resume text goes
  into the prompt as extracted.
- The structure error is reported with the message the code has ("… missing required steps
  (Step1, Step2, Step3)"), although the check is for `basics`.

## Model

Functions that only compute a value carry no contract of their own. The rows of the lemmas and
methods about them state what they do:

- `Sanitize.QuoteBareKeys`: `QuoteBareKeysSqueeze`, `QuoteBareKeysChars`,
  `QuoteBareKeysUntouched`, `QuoteBareKeysExample`.
- `Prompts.CreateSectionPrompt`: `KnownSectionPrompt`, `UnknownSectionPrompt`.
- `Enhance.EnhanceSections`, `Rewrap`, `EnhancedDocument`, `HasDetailsWrapper`:
  `EnhanceResumeBySections`, `MapSections`, `ResumeBody`, `UnwrappedShape`, `WrappedShape`,
  `EnhanceSectionsWellFormed`.
- `ConverterRules.FormatDateText`, `FormatDate`: the `FormatDate…` lemmas and `MonthIndexLaw`.
- `ConverterRules.ExtractYearText`, `ExtractYear`: the `ExtractYear…` lemmas.
- `ConverterRules.FindTags`: `FindTagsShape`, `FindTagsEmptyIff`, `FindTagsExample`.
- `ConverterRules.ExtractTags`: `TagsOfNothing`, `TagsFound`, `TagsFallback`, `TagsCount`,
  `TagsOfString`.
- `ResumeConverter.Job`: `JobFields`, `JobLinks`. `School`: `SchoolPlace`, `SchoolDegree`,
  `SchoolYears`. `Classify`: `ClassifyRule`. `Address`: `AddressRule`. `ContactsOf`:
  `ContactsFields`, `ContactsOther`, `ContactsGithub`, `ContactsLinkedin`, `ContactsWebsite`.
- `ResumeConverter.AfterContacts` to `AfterObjective` and `Converted`: the converter's methods,
  `ConvertedFields`, `ConvertFresh`.
- `Extract.CleanText`: the `CleanText…` lemmas. `CreateExtractionPrompt`:
  `ExtractionPromptContents`, `FieldsShown`. `CleanedReply`: `CleanedReplyFenceFree`,
  `FencedReplyCleaned`.

| member | source | states |
|---|---|---|
| Prompts.StyleTemplatesDefineAllRules | utils/enhance.py:14-31 | both style templates define exactly the same rule keys |
| Prompts.RuleKeysApart | utils/enhance.py:14-31 | no rule key collides with the three placeholders `job_description`, `original_content` and `section_name` |
| Prompts.ResolveStyle | utils/enhance.py:213 | a known template type gives its table and any other gives the `simple` table; either way the result defines every rule key |
| Prompts.SectionTemplatesWellFormed | utils/enhance.py:33-175 | every section template uses only rule-key placeholders and ends with the "Return ONLY the enhanced JSON" directive |
| Prompts.PromptEnv | utils/enhance.py:237-241 | the substitution environment maps `job_description` to the job description or "Not provided", `original_content` to the 2-space serialisation of the section, `section_name` to the name, and each rule key to the resolved style's text |
| Prompts.TemplateFor | utils/enhance.py:215-237 | the chosen template (the section's own, or the generic one) has placeholders only for keys the environment defines, so formatting cannot raise `KeyError` |
| Prompts.FormatAppend | utils/enhance.py:237-241 | formatting a concatenation of templates is the concatenation of the formatted parts |
| Prompts.FormatShowsPiece | utils/enhance.py:237-241 | every rendered piece of a template occurs in the formatted prompt |
| Prompts.KnownSectionPrompt | utils/enhance.py:206-243 | for a section in the table, the prompt contains the job description text, the serialised section data, the directive and every resolved rule it names |
| Prompts.UnknownSectionPrompt | utils/enhance.py:215-235 | for any other section name, the generic prompt contains the job description text, the serialised data, the directive and the section name |
| Prompts.KnownSectionContents | utils/enhance.py:237-241 | a well-formed section template, formatted with a complete environment, shows the job description, the content, the directive and each rule it names |
| Prompts.GenericContents | utils/enhance.py:215-235 | the generic template, formatted, shows the job description, the content, the section name and the directive |
| Sanitize.LastIndex | utils/enhance.py:181 | the greedy end of the regular expression: the last occurrence of the closer, with none after it, and `None` exactly when it does not occur |
| Sanitize.FindSpan | utils/enhance.py:181 | the leftmost index that opens a span (a bracket with its closer later on), up to the last such closer; `None` exactly when no index opens a span |
| Sanitize.SpanText | utils/enhance.py:181-183 | the matched span with newlines removed and stripped; `None` exactly when the reply has no span |
| Sanitize.SpanTextShape | utils/enhance.py:181-183 | the cleaned span starts with an opening bracket, ends with the matching closer and holds no newline |
| Sanitize.CleanedShape | utils/enhance.py:183 | removing newlines from a bracketed span and stripping it keeps both brackets |
| Sanitize.CleanLlmResponse | utils/enhance.py:178-189 | no span gives "No valid JSON found"; a span that does not parse gives "Invalid JSON format"; otherwise the result parses to the same value as the span |
| Sanitize.KeyAt | utils/enhance.py:200 | one step of `re.sub(r'([{,])\s*(\w+):', …)`: no key can match unless the text starts with `{` or `,` |
| Sanitize.KeyAtMatch | utils/enhance.py:200 | a reported hit is a real match of the pattern (opener, spaces, word characters, colon) |
| Sanitize.KeyAtComplete | utils/enhance.py:200 | every match of the pattern at the start of the text is found, with its own whitespace and word lengths, so the match is unique |
| Sanitize.QuoteBareKeysSqueeze | utils/enhance.py:200 | quoting bare keys changes nothing but the inserted quotes and the spaces the pattern swallows |
| Sanitize.QuoteBareKeysChars | utils/enhance.py:200 | quoting bare keys introduces no character but `"` |
| Sanitize.QuoteBareKeysUntouched | utils/enhance.py:200 | text with neither `{` nor `,` is left as it is |
| Sanitize.QuoteBareKeysExample | utils/enhance.py:200 | `{a:1}` becomes `{"a":1}` |
| Sanitize.RepairText | utils/enhance.py:197-200 | the repaired text holds no single quote |
| Sanitize.ParseJsonSafely | utils/enhance.py:191-204 | text that parses gives its value; otherwise the repaired text's value when that parses; `{}` when both parses fail; the result is always well-formed |
| Sanitize.ParseSafelyRoundTrip | utils/enhance.py:194-195 | text that is already valid JSON is parsed as it stands: parsing a serialised value gives the value back |
| Sanitize.ParseSafelyGarbage | utils/enhance.py:196-204 | text that cannot be JSON and that the repair leaves unchanged parses to `{}`, so it does not raise |
| Sanitize.SentinelsParseEmpty | utils/enhance.py:187-189 | both failure messages of `clean_llm_response` parse to `{}` |
| Sanitize.CleanThenParse | utils/enhance.py:178-204 | cleaning a reply and then parsing it safely gives the parse of its JSON span when that parses, and `{}` when there is no span or the span does not parse |
| Enhance.EnhanceResumeSection | utils/enhance.py:253-283 | the result is the original section or a truthy value |
| Enhance.SectionKeptOnFailure | utils/enhance.py:261-283 | if the call raises, the reply has no `.content`, there is no span, the span does not parse or it parses to a falsy value, the original section is returned |
| Enhance.SectionReplacedOnSuccess | utils/enhance.py:271-281 | when the reply's span parses to a truthy value, that value replaces the section |
| Enhance.SectionWellFormed | utils/enhance.py:253-283 | given well-behaved JSON functions, an enhanced section is well-formed when the original is |
| Enhance.ExtractResponseText | utils/enhance.py:245-251 | `.text` for the Gemini family when present, `.content` for ChatOpenAI, ChatDeepSeek and OpenAI when present, and `str(response)` otherwise |
| Enhance.ResumeBody | utils/enhance.py:303-308 | a résumé is wrapped exactly when `details` is a dictionary; the sections are then that dictionary, and otherwise the whole input |
| Enhance.MapSections | utils/enhance.py:310-327 | the enhanced sections have the input's keys in the input's order, each with that section's enhancer result |
| Enhance.SectionNamesDistinct | utils/enhance.py:303-308 | the section names of a well-formed résumé are distinct, with or without the wrapper |
| Enhance.RunSectionTasks | utils/enhance.py:310-327 | the two loops (create a task per section, then collect each result under its name) compute the mapped sections |
| Enhance.MapSectionsStep | utils/enhance.py:325-327 | collecting one more result appends it, because section names are distinct |
| Enhance.EnhanceResumeBySections | utils/enhance.py:285-335 | the method's result is the enhanced document: the wrapper detected, every section enhanced and the result re-wrapped |
| Enhance.UnwrappedShape | utils/enhance.py:333-335 | without a wrapper, the output has exactly the input's keys in order (`JD` included), each mapped to its enhanced section |
| Enhance.WrappedShape | utils/enhance.py:329-332 | with a wrapper, the output holds `details` (the enhanced sections), then `JD` unchanged exactly when the input has it, and no other key |
| Enhance.EnhanceSectionsWellFormed | utils/enhance.py:310-327 | enhancing keeps a well-formed dictionary well-formed (values well-formed, keys distinct) |
| Enhance.ReenhanceKeepsKeys | utils/enhance.py:285-335 | enhancing an enhanced document again keeps its top-level keys, when the input had a wrapper or no `details` key |
| Enhance.FailingModelKeepsSections | utils/enhance.py:282-283 | a model whose every call raises leaves every section unchanged |
| Enhance.EffectiveJobDescription | utils/enhance.py:357-359 | the explicit job description unless it is falsy; otherwise the résumé's `JD` when present, else the falsy value itself |
| Enhance.EnhanceResumeWithModel | utils/enhance.py:337-373 | if obtaining the model raises, the input is returned unchanged; otherwise the result is the enhanced document under the effective job description |
| ConverterRules.PyInt | utils/resume_converter.py:235 | `int(month)` succeeds only on optionally signed decimal digits (with `_` only between digits) around surrounding whitespace |
| ConverterRules.PyIntTwoDigits | utils/resume_converter.py:235 | `int` of two digits is their decimal value |
| ConverterRules.PyIntNoMinusNonNegative | utils/resume_converter.py:235-237 | without a minus sign the month is never negative, so only month 0 reaches negative indexing |
| ConverterRules.MonthIndexLaw | utils/resume_converter.py:236-237 | `months[month - 1]` succeeds exactly for months -11 to 12: months 1 to 12 give their own abbreviation, 0 to -11 count from the end of the year (0 gives `Dec`) |
| ConverterRules.FormatDateEmpty | utils/resume_converter.py:225-226 | the formatted date is empty exactly when the input is |
| ConverterRules.FormatDateFalsy | utils/resume_converter.py:225-226 | `FormatDate` gives "" exactly for a falsy value |
| ConverterRules.FormatDatePresent | utils/resume_converter.py:228-229 | "present" in any case gives "present" |
| ConverterRules.FormatDateNoDash | utils/resume_converter.py:239-241 | a date without `-` is returned unchanged |
| ConverterRules.FormatDateDash | utils/resume_converter.py:233-234 | `YEAR-MONTH` splits into exactly the year and the month |
| ConverterRules.FormatDateMonth | utils/resume_converter.py:233-238 | `YEAR-MONTH` with integer month 1..12 gives `YEAR Mon.` from the fixed abbreviation table |
| ConverterRules.FormatDateTwoDigitMonth | utils/resume_converter.py:233-238 | a two-digit month `YYYY-MM` with value 1..12 gives `YYYY Mon.` |
| ConverterRules.FormatDateMonthZero | utils/resume_converter.py:236-237 | month 0 gives `YEAR Dec.`, through negative indexing |
| ConverterRules.FormatDateErrors | utils/resume_converter.py:233-243 | more than one `-`, a month that is not an integer, or a month above 12 sends the date back unchanged through the exception path |
| ConverterRules.FormatDateMonthRange | utils/resume_converter.py:234-235 | when the split gives two parts and the month parses, the month is not negative and the date has exactly one `-` |
| ConverterRules.FindYear | utils/resume_converter.py:260 | the year search: the first standalone 19xx or 20xx year at or after the start, with none before it; `None` exactly when there is none |
| ConverterRules.ExtractYearEmpty | utils/resume_converter.py:247-248 | the empty string gives the empty string |
| ConverterRules.ExtractYearPresent | utils/resume_converter.py:250-251 | "present" in any case gives "present" |
| ConverterRules.ExtractYearDash | utils/resume_converter.py:255-256 | with a `-`, the result is the text before the first `-` |
| ConverterRules.ExtractYearYearMonth | utils/resume_converter.py:255-256 | `YEAR-MONTH` gives the year |
| ConverterRules.ExtractYearFound | utils/resume_converter.py:259-262 | without a `-`, the result is the first standalone year |
| ConverterRules.ExtractYearNone | utils/resume_converter.py:264 | without a `-` and without a year, the input is returned |
| ConverterRules.LetterRun | utils/resume_converter.py:278 | the run of letters at the start of a text: all letters, ended by a non-letter or the end |
| ConverterRules.CapWordAt | utils/resume_converter.py:278 | a capitalised word match (`CapWordAt`, used by `FindTags`) is a capital followed by at least one more letter |
| ConverterRules.CapWordAtComplete | utils/resume_converter.py:278 | a capital at a word boundary followed by letters up to the next boundary is matched, up to that boundary |
| ConverterRules.QuotedAt | utils/resume_converter.py:278 | a quoted match runs from a `"` to the next `"`, with a non-empty text between |
| ConverterRules.QuotedAtComplete | utils/resume_converter.py:278 | a `"` whose next `"` is not adjacent is matched, up to that next quote |
| ConverterRules.FindTagsShape | utils/resume_converter.py:278-281 | every tag found is a capitalised word or quoted text, and occurs in the joined highlights |
| ConverterRules.FindTagsEmptyIff | utils/resume_converter.py:278-281 | `FindTags` finds nothing exactly when neither alternative matches at any position |
| ConverterRules.FindTagsExample | utils/resume_converter.py:278-281 | `"ab" Go` yields the tags `ab` and `Go`, in that order |
| ConverterRules.TagsOfNothing | utils/resume_converter.py:270-271 | empty highlights give no tags |
| ConverterRules.TagsFound | utils/resume_converter.py:274-284 | for a list, a string or a dictionary whose joined text has tags, `ExtractTags` returns one to three distinct found tags, and all of them when fewer than three |
| ConverterRules.TagsFallback | utils/resume_converter.py:287-292 | for a list or a string with no tag found: first word, third word and "Development" if the first item has at least three words, else the three fixed tags |
| ConverterRules.TagsCount | utils/resume_converter.py:268-294 | every accepted input gets at most three tags, and none exactly when it is falsy |
| ConverterRules.TagsOfString | utils/resume_converter.py:274-292 | a string given as the highlights is joined character by character; without a double quote it always gets the three fixed tags |
| ResumeConverter.Dicts | utils/resume_converter.py:114-116 | the entries kept by `if not isinstance(entry, dict): continue` all come from the list |
| ResumeConverter.DictsAll | utils/resume_converter.py:114-116 | when every element is a dictionary, all are kept in order |
| ResumeConverter.DictsNone | utils/resume_converter.py:114-116 | when no element is a dictionary, none is kept |
| ResumeConverter.DictsAppend | utils/resume_converter.py:114-116 | skipping non-dictionaries distributes over concatenation |
| ResumeConverter.SlugShape | utils/resume_converter.py:125 | `name.lower().replace(' ', '')` holds no space and no capital |
| ResumeConverter.NamedContacts | utils/resume_converter.py:36-38 | name, title (from `label`) and email are set, with "" for a missing one; no other contact entry changes |
| ResumeConverter.AddressRule | utils/resume_converter.py:45-46 | the address is "city, country" when both are non-empty, else the one that is; the location is country, else city |
| ResumeConverter.ContactsFields | utils/resume_converter.py:36-46 | after `convert_contacts`: name, title and email as given; address and location by the rule when the location is a dictionary, else untouched |
| ResumeConverter.ContactsOther | utils/resume_converter.py:32-77 | the profile loop and the website step leave every entry other than `linkedin`, `github` and `website` as the named fields and the address set it |
| ResumeConverter.ApplyProfileGet | utils/resume_converter.py:53-67 | one profile sets the `linkedin` or `github` entry when its lower-cased network says so, and nothing else |
| ResumeConverter.ProfilesResult | utils/resume_converter.py:52-67 | the profile loop changes only `linkedin` and `github` |
| ResumeConverter.ContactsGithub | utils/resume_converter.py:62-67 | the GitHub entry is the last GitHub profile's URL with `@` before the username; without such a profile it is untouched |
| ResumeConverter.ContactsLinkedin | utils/resume_converter.py:58-61 | the LinkedIn entry is the last LinkedIn profile's URL and username; without such a profile it is untouched |
| ResumeConverter.ContactsWebsite | utils/resume_converter.py:70-74 | a truthy URL sets the website to the URL with every `https://` and `http://` removed from its display text; otherwise the entry is untouched |
| ResumeConverter.WebsiteGet | utils/resume_converter.py:70-74 | the website step sets only `website`, and only when the URL is truthy |
| ResumeConverter.StripSchemeHost | utils/resume_converter.py:73 | removing the schemes from `https://host` or `http://host` gives the host |
| ResumeConverter.HttpNotHttps | utils/resume_converter.py:73 | `http://host` holds no `https://`, so the first replacement leaves it for the second |
| ResumeConverter.Jobs | utils/resume_converter.py:83-104 | one job per dictionary entry, in order |
| ResumeConverter.JobFields | utils/resume_converter.py:87-101 | `Job` has the eight keys in order; `from` and `to` are "" exactly when the entry's dates are falsy; `tags` holds up to three strings, none exactly when the highlights are falsy |
| ResumeConverter.JobLinks | utils/resume_converter.py:89-96 | the company link is the product link plus `/`, of the shape `https://<slug>.com/` with a slug that holds no space and no capital |
| ResumeConverter.EducationItems | utils/resume_converter.py:108-112 | a dictionary holding `education` is unwrapped once; anything else is used as it is |
| ResumeConverter.EducationUnwrapped | utils/resume_converter.py:111-112 | the inner `education` value is the list that is iterated |
| ResumeConverter.Schools | utils/resume_converter.py:114-135 | one education entry per dictionary, in order |
| ResumeConverter.SchoolPlace | utils/resume_converter.py:118-126 | the place is the institution with link `http://<slug>.edu`, or "" when the institution is falsy |
| ResumeConverter.SchoolDegree | utils/resume_converter.py:119-129 | the degree is `degree`, else `studyType`; major and track are both `area` |
| ResumeConverter.SchoolYears | utils/resume_converter.py:130-131 | a `YEAR-MONTH` start date gives the year as `from`; with no start and no end date, `from` and `to` agree |
| ResumeConverter.ClassifyRule | utils/resume_converter.py:156-169 | methodology exactly when the category holds "method" or "approach"; tools when it holds "tool"/"environment" and not those; technical when "technical"/"language"/"framework" and none before; general otherwise |
| ResumeConverter.BucketsPartition | utils/resume_converter.py:146-169 | the four buckets together hold exactly the keywords of the non-empty dictionary groups, as a multiset |
| ResumeConverter.BucketsCount | utils/resume_converter.py:146-169 | the sizes of the four buckets add up to the number of keywords |
| ResumeConverter.GroupStep | utils/resume_converter.py:156-169 | a group with keywords extends exactly its own bucket |
| ResumeConverter.GroupSkip | utils/resume_converter.py:147-154 | a non-dictionary group or one with no keywords changes no bucket |
| ResumeConverter.LevelledAll | utils/resume_converter.py:163-167 | one technical entry per keyword |
| ResumeConverter.LevelledAllIndex | utils/resume_converter.py:163-167 | the j-th technical entry is the j-th keyword with the j-th random draw as its level |
| ResumeConverter.TechnicalLevels | utils/resume_converter.py:163-177 | the technical expertise has one entry per technical keyword, named by it, with level 3..5; with none, it is the two placeholder entries |
| ResumeConverter.ProjectAchievements | utils/resume_converter.py:183-199 | one achievement per project dictionary, in order |
| ResumeConverter.ProjectFields | utils/resume_converter.py:187-197 | the name is the project's; the description is the first of a non-empty list, the value as it is otherwise, and "" when missing |
| ResumeConverter.CertAchievements | utils/resume_converter.py:205-217 | one achievement per certification dictionary, in order |
| ResumeConverter.CertFields | utils/resume_converter.py:209-214 | the name is the title; the description is the certificate's when truthy, else "Issued by" and the awarder |
| ResumeConverter.MapDicts | utils/resume_converter.py:114-135 | one output per dictionary element |
| ResumeConverter.MapDictsIndex | utils/resume_converter.py:114-135 | the k-th output is the function applied to the k-th dictionary element |
| ResumeConverter.AppendDicts | utils/resume_converter.py:83-104 | the append loop adds exactly the mapped dictionary elements after the existing list |
| ResumeConverter.BuildContacts | utils/resume_converter.py:32-74 | the statements of `convert_contacts` that fill the contacts dictionary: the named fields, the address, the profile loop and the website |
| ResumeConverter.Fold | utils/resume_converter.py:52-67 | a loop over the profiles computes the left fold of the step function |
| ResumeConverter.SortSkills | utils/resume_converter.py:146-169 | the skills loop leaves general, methodology and tools as the buckets' keywords and technical expertise as the levelled technical keywords, consuming one draw per technical keyword |
| ResumeConverter.AddGroup | utils/resume_converter.py:156-169 | one group extends exactly the list of its bucket |
| ResumeConverter.DrawLevels | utils/resume_converter.py:163-167 | the inner loop appends one levelled entry per keyword |
| ResumeConverter.Fresh | utils/resume_converter.py:19-30 | the initial state: every list and the contacts dictionary empty, no extra keys |
| ResumeConverter.ConfigOf | utils/resume_converter.py:21-30 | `config_data` has the eight initial keys in order, then the keys added later |
| ResumeConverter.Converter.constructor | utils/resume_converter.py:19-30 | the new converter holds the input and the initial state |
| ResumeConverter.Converter.ConfigData | utils/resume_converter.py:21-30 | the dictionary view of the fields, with the eight initial keys first |
| ResumeConverter.Converter.ConvertContacts | utils/resume_converter.py:32-77 | contacts become the filled contacts dictionary; `position` (the label) and then `tagline` (the summary) are set; nothing else changes |
| ResumeConverter.Converter.ConvertWorkExperience | utils/resume_converter.py:79-104 | one job is appended per work dictionary, in order; nothing else changes |
| ResumeConverter.Converter.ConvertEducation | utils/resume_converter.py:106-135 | one entry is appended per education dictionary, after unwrapping; nothing else changes |
| ResumeConverter.Converter.ConvertSkills | utils/resume_converter.py:137-177 | the four lists are replaced by the buckets, with placeholders for empty technical expertise; only the draw counter also moves |
| ResumeConverter.Converter.ConvertProjectsToAchievements | utils/resume_converter.py:179-199 | one achievement is appended per project dictionary; nothing else changes |
| ResumeConverter.Converter.ConvertCertifications | utils/resume_converter.py:201-217 | one achievement is appended per certification dictionary; nothing else changes |
| ResumeConverter.Converter.AddObjective | utils/resume_converter.py:219-221 | `objective` is set to the fixed text; nothing else changes |
| ResumeConverter.Converter.Convert | utils/resume_converter.py:296-306 | the seven steps in order: the new state is the composed transformation of the old one, and the returned dictionary is the state's view |
| ResumeConverter.ConvertedFields | utils/resume_converter.py:296-306 | field by field: the contacts, the appended jobs, education and achievements (projects then certifications), the buckets, the draws and the three extra keys |
| ResumeConverter.ConvertFresh | utils/resume_converter.py:296-306 | from a new converter the result has the eight initial keys followed by position, tagline and objective, with the label, the summary and the fixed objective |
| ResumeConverter.FreshExtras | utils/resume_converter.py:219-221 | setting position (line 49), tagline (line 77) and objective on an empty dictionary gives those three in that order |
| Extract.CleanTextChars | utils/extract.py:19-21 | the cleaned text holds no NUL, and its only whitespace is plain spaces |
| Extract.CleanTextJoins | utils/extract.py:21 | for NUL-free input the NUL removal does nothing, so the result is the words joined by single spaces |
| Extract.CleanTextNormalised | utils/extract.py:19-21 | for NUL-free input: no space at either end, no two spaces in a row, and the same words as the input |
| Extract.CleanTextIdempotent | utils/extract.py:19-21 | for NUL-free input, cleaning twice equals cleaning once |
| Extract.SplitJoin | utils/extract.py:21 | splitting words joined by single spaces gives the words back |
| Extract.CleanTextNulGap | utils/extract.py:21 | as written, `a \0 b` becomes `a  b`: the NUL is removed after the join and leaves two spaces |
| Extract.CleanTextIntended | utils/extract.py:19-21 | NUL removed before splitting: no NUL, normalised spacing, and the words of the NUL-free text |
| Extract.CleanTextIntendedAgrees | utils/extract.py:19-21 | on NUL-free input the corrected definition agrees with the code |
| Extract.Zip | utils/extract.py:49-118 | the schema dictionary built from a key list has exactly those keys and the given values |
| Extract.Texts | utils/extract.py:49-118 | a schema record whose fields are all "string" has exactly the given keys |
| Extract.SchemaHasSections | utils/extract.py:49-118 | the schema has exactly the seven sections basics, work, education, skills, projects, publications and awards, in that order |
| Extract.SchemaWellFormed | utils/extract.py:49-118 | the schema template is a well-formed JSON value: distinct keys at every level |
| Extract.SchemaDecodes | utils/extract.py:128 | the serialised schema parses back to the schema |
| Extract.ExtractionPromptContents | utils/extract.py:120-143 | the prompt contains the resume text verbatim, the serialised hyperlinks, the serialised schema and the "Return only valid JSON" line |
| Extract.FieldsShown | utils/extract.py:120-143 | every filled field of the prompt layout occurs in the prompt |
| Extract.RemoveNullValues | utils/extract.py:145-151 | the result holds no null; null becomes ""; other scalars are unchanged; lists keep their length; dictionaries keep their keys in order; well-formedness is kept |
| Extract.RemoveNullsFixesNullFree | utils/extract.py:145-151 | a value without null is left unchanged |
| Extract.RemoveNullsIdempotent | utils/extract.py:145-151 | removing nulls twice equals removing them once |
| Extract.RemoveNullsKeepsKey | utils/extract.py:147-148 | a dictionary has a key after null removal exactly when it had it before |
| Extract.GetModelName | utils/extract.py:153-160 | the exact types GoogleGenerativeAI, ChatOpenAI and ChatDeepSeek give gemini, openai and deepseek; every other class, subclasses included, gives unknown |
| Extract.ModelNames | utils/extract.py:155-160 | gemini, openai and deepseek exactly for the exact types GoogleGenerativeAI, ChatOpenAI and ChatDeepSeek; distinct classes in the mapping get distinct names |
| Extract.ExtractResponseText | utils/extract.py:162-168 | `.text` for the Gemini family when present, `.content` for ChatOpenAI and ChatDeepSeek (subclasses included) when present, and `str(response)` otherwise, OpenAI included |
| Extract.ResponseTextVersions | utils/extract.py:162-168 | agrees with the enhancer's version for every class except `OpenAI`, for which it gives `str(response)` |
| Extract.ErrorDict | utils/extract.py:205 | an error result is a dictionary whose only key is `error` |
| Extract.DeleteFencesFree | utils/extract.py:216 | deleting every "```" leaves no "```" |
| Extract.CleanedReplyFenceFree | utils/extract.py:216 | the cleaned reply holds no "```" |
| Extract.FencedReplyCleaned | utils/extract.py:216 | a reply "```json" + body + "```", whose body holds no backtick, cleans to the stripped body |
| Extract.ParseExtraction | utils/extract.py:218-253 | an undecodable reply or a result that is not a dictionary with `basics` gives an error dictionary; otherwise the result has `basics` and holds no null; it is always well-formed given a well-behaved parser |
| Extract.ConvertPdfToJsonSchema | utils/extract.py:183-260 | the whole decision: an error dictionary, or a null-free dictionary with `basics`, and well-formed either way |
| Extract.OutcomesDisjoint | utils/extract.py:222-244 | an error dictionary never has `basics`, so success and failure cannot be confused |
| Extract.FailuresReported | utils/extract.py:197-260 | obtaining the model, reading the PDF, the model call or the token-usage lookup raising each gives `{"error": "Extraction failed: " + message}` with that exception's message |
| Extract.PlainReplyFails | utils/extract.py:211-212 | a model replying with a plain string fails the token-usage lookup, so the result is an `Extraction failed` error without `basics`, whatever the string holds |
| Extract.BlankTextRefused | utils/extract.py:204-205 | once the model is obtained, blank extracted text gives "No text could be extracted from the PDF" whatever the model does |
| Extract.RepliedOutcome | utils/extract.py:211-220 | when every step up to the reply succeeds, the result is the parse of the cleaned reply |
| Extract.UndecodableReply | utils/extract.py:246-253 | a cleaned reply that does not decode gives "Invalid JSON response: " followed by the decoder's message |
| Extract.StructureChecked | utils/extract.py:222-231 | a decoded reply that is not a dictionary with `basics` gives the structure error; one that is gives its null-free dictionary |
| Extract.FencedReplyRoundTrip | utils/extract.py:216-244 | a fenced serialisation of a résumé dictionary with `basics` comes back as that dictionary with nulls removed, unchanged if it has none |
| PyText.StripEmptyIffBlank | utils/extract.py:204 | `text.strip()` is empty exactly when the text is all whitespace |
| Llm.PlainReply | utils/extract.py:162-168 | a plain string reply has no `.text`, no `.content` and no `response_metadata`, and shows as itself |

## Left out

- PDF reading (`extract_text_and_hyperlinks`), `save_input_json`, logging and the interaction
  logger are file and library I/O. The model receives the text and hyperlinks as a parameter.
  `save_input` only writes a file, so it is not modelled.
- Obtaining the model (`SimpleModelManager().get_model()`) and the model call are
  parameters: an `Attempt` of a model, and a model whose `ainvoke` is an uninterpreted
  function that either returns or raises. `enhance_resume_by_sections` creates one task per
  section with `asyncio.create_task` and then awaits each task in turn. The tasks share no
  state, so they are run one after the other.
- `json.loads`, `json.dumps(indent=2)` and `str()` are uninterpreted functions of a `Codec`,
  with the laws listed above. No JSON grammar is modelled. A decode error carries an
  uninterpreted message.
- `random.randint(3, 5)` and the iteration order of `set(tags)` come from a `Runtime` value.
  Its laws give only the bounds and the element-once order, not particular values.
- The long natural-language prompt texts are abridged to short constants of the same shape:
  - each style rule, section template and the generic template keep their placeholders and
    the closing directive;
  - the extraction instructions keep their heading, their first and last items and the
    blank-line layout;
  - indentation inside the prompts is dropped.

  The properties proved are about what the prompts contain, and these edits do not affect them.
- `.lower()`, `\w`, `\b`, the `[A-Z]` and `[a-zA-Z]` classes, the digits `int()` accepts and
  regex `\d` are modelled on ASCII only. Whitespace (`str.split()`, `str.strip()`, regex `\s`)
  is Python's full set (`PyText.IsSpace`).
- JsonData.Json: numbers are integers only. JSON floats are not modelled; no operation of the
  core inspects a number beyond its truthiness.
- Inputs for which the source raises `AttributeError` or `TypeError` are excluded by
  `requires` in the converter (`ContactsInput`, `WorkInput`, `EducationInput`, `SkillsInput`,
  `ConvertInput`). Examples: a non-string network, non-iterable lists, a non-string date.
  The converter has no exception handling. The same goes for date and year formatting
  (`FormatDate`, `ExtractYear`), which require a string or a falsy value.
- ConverterRules.ExtractTags: highlights may be a list of strings, a string (joined character
  by character) or a dictionary (its keys joined). A dictionary whose keys yield no tag makes
  the fallback read `highlights[0]`, a `KeyError`; `TagInput` excludes that input, as the
  other raising inputs are excluded. For a dictionary whose found tags a runtime's set order
  loses, the model returns no tags; a valid `Runtime` never does that.
- ResumeConverter.Converter.ConvertContacts: the contacts dictionary is built by the
  module-level method `BuildContacts` and stored once, not entry by entry in the field. The
  final value is the same.
- ResumeConverter.Converter.ConvertWorkExperience, ConvertEducation and ConvertSkills: the
  append loops run in module-level methods (`AppendDicts`, `SortSkills`) over local lists.
  The field is assigned once, with the same final value.
- ResumeConverter.Converter.ConvertSkills: the position in the stream of random draws is a
  field (`draws`) of the converter, so successive calls draw fresh levels.
- Llm.ModelResponse: `.content` is modelled as a string. A list-valued content (multi-part
  messages) is not.
- Extract.ConvertPdfToJsonSchema: the exception text `str(e)` of a failure that is not a decode
  error is the `Attempt`'s message. Which library call raised is not modelled beyond that.

## Findings

| source | as written | input that shows it | evidently intended | confidence | as-written member | corrected member |
|---|---|---|---|---|---|---|
| utils/extract.py:21 | `" ".join(text.split()).replace('\x00', '')` removes NUL characters after joining the words, so a NUL that stood alone between spaces leaves two spaces behind | `"a \0 b"` gives `"a  b"` | text normalised to single spaces with no NUL, as the docstring "Clean and normalize" says | low, not executed | Extract.CleanTextNulGap | Extract.CleanTextIntended |

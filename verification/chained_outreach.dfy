/** The chained outreach workflow: fetch a profile, pull out the fields the
    message needs, choose a writing style and ask the language model once.
    Every step either succeeds or raises, and the first exception ends the
    run as a failure. */
module ChainedOutreach {
  import opened Core
  import opened Text
  import opened JsonData
  import opened Http

  /** Why a step raised. */
  datatype Fault =
      /** The explicit raise on a non-200 response, whose text is
          "Profile fetch failed: <status> - <body>". */
    | FetchFailed(status: nat, text: string)
      /** `requests.get` or `response.json()` raised with this message. */
    | Raised(message: string)
      /** `KeyError` for a missing string key, or for key `0` on a dict. */
    | KeyMissing(key: Json)
      /** `IndexError` on an empty list or string. */
    | IndexOutOfRange(typeName: string)
      /** `TypeError`: the value cannot be subscripted with this key. */
    | NotSubscriptable(typeName: string)
      /** `AttributeError`: the value has no `lower` method. */
    | NoLower(typeName: string)
      /** The language-model call raised with this message. */
    | ModelRaised(message: string)

  // ---------------------------------------------------------------------
  // Step 1: fetch.
  // ---------------------------------------------------------------------

  /** The fetch step: any status but 200 raises with the status and body;
      a 200 response gives its decoded document. */
  function FetchProfile(outcome: HttpOutcome): (r: Result<Json, Fault>)
    ensures outcome.Response? && outcome.status != 200 ==> r == Err(FetchFailed(outcome.status, outcome.text))
    ensures outcome.Response? && outcome.status == 200 && outcome.body.Ok? ==> r == Ok(outcome.body.value)
    ensures r.Ok? <==> outcome.Response? && outcome.status == 200 && outcome.body.Ok?
  {
    match outcome
    case Response(status, text, body) =>
      if status != 200 then Err(FetchFailed(status, text))
      else (match body
            case Ok(doc) => Ok(doc)
            case Err(msg) => Err(Raised(msg)))
    case TimedOut(msg) => Err(Raised(msg))
    case RequestFailed(msg) => Err(Raised(msg))
  }

  // ---------------------------------------------------------------------
  // Step 2: extraction, with Python's subscripting rules.
  // ---------------------------------------------------------------------

  /** `v[key]` for a string key. */
  function Subscript(v: Json, key: string): (r: Result<Json, Fault>)
    ensures r.Ok? <==> v.Obj? && key in v.fields
    ensures r.Ok? ==> r.value == v.fields[key]
  {
    match v
    case Obj(m) => if key in m then Ok(m[key]) else Err(KeyMissing(Str(key)))
    case _ => Err(NotSubscriptable(TypeName(v)))
  }

  /** `v[0]`: the first item of a list, the first character of a string,
      and a `KeyError` on a dict, whose keys are strings. */
  function First(v: Json): (r: Result<Json, Fault>)
    ensures v.Arr? && |v.items| > 0 ==> r == Ok(v.items[0])
    ensures r.Ok? ==> (v.Arr? && |v.items| > 0) || (v.Str? && |v.s| > 0)
  {
    match v
    case Arr(items) => if |items| > 0 then Ok(items[0]) else Err(IndexOutOfRange("list"))
    case Str(s) => if |s| > 0 then Ok(Str([s[0]])) else Err(IndexOutOfRange("str"))
    case Obj(_) => Err(KeyMissing(Int(0)))
    case _ => Err(NotSubscriptable(TypeName(v)))
  }

  /** `v.lower()`: only strings have it. */
  function LowerOf(v: Json): (r: Result<string, Fault>)
    ensures r.Ok? <==> v.Str?
    ensures r.Ok? ==> r.value == Lower(v.s)
  {
    match v
    case Str(s) => Ok(Lower(s))
    case _ => Err(NoLower(TypeName(v)))
  }

  /** The fields the message is built from. */
  datatype Extracted = Extracted(firstName: Json, company: string, description: Json, isTech: bool)

  const TechWords: seq<string> := ["tech", "software", "computer"]
  const HeadlineWords: seq<string> := ["tech", "software", "ai"]
  const CompanyWords: seq<string> := ["nvidia", "microsoft", "google"]

  /** Some word of the list occurs in `s`, anywhere. */
  predicate MentionsAny(s: string, words: seq<string>) {
    exists k :: 0 <= k < |words| && Contains(s, words[k])
  }

  /** The tech test on the lowercased industry, headline and company. */
  predicate IsTech(industry: string, headline: string, company: string) {
    || Contains(industry, "tech") || Contains(industry, "software") || Contains(industry, "computer")
    || Contains(headline, "tech") || Contains(headline, "software") || Contains(headline, "ai")
    || Contains(company, "nvidia") || Contains(company, "microsoft") || Contains(company, "google")
  }

  /** `profile.get("industry") or ""`: a falsy value reads as "". */
  function IndustryOf(d: Dict): Json {
    if Truthy(Get(d, "industry")) then Get(d, "industry") else Str("")
  }

  /** `profile.get("headline", "")`: only a missing key reads as "". */
  function HeadlineOf(d: Dict): Json {
    GetOr(d, "headline", Str(""))
  }

  /** The profile holds every field extraction reads, with the types it
      needs: a first name, a non-empty list of experiences whose first entry
      has a string company and a description, an industry that is falsy or
      a string and a headline that is absent or a string. */
  predicate Extractable(profile: Json) {
    && profile.Obj?
    && "first_name" in profile.fields
    && "experiences" in profile.fields
    && profile.fields["experiences"].Arr?
    && |profile.fields["experiences"].items| > 0
    && profile.fields["experiences"].items[0].Obj?
    && "company" in profile.fields["experiences"].items[0].fields
    && "description" in profile.fields["experiences"].items[0].fields
    && profile.fields["experiences"].items[0].fields["company"].Str?
    && IndustryOf(profile.fields).Str?
    && HeadlineOf(profile.fields).Str?
  }

  /** The extraction step, raising at the first field that is missing or of
      the wrong type, in the order the fields are read. */
  function ExtractProfileData(profile: Json): (r: Result<Extracted, Fault>)
    ensures r.Ok? <==> Extractable(profile)
  {
    var firstName :- Subscript(profile, "first_name");
    var exps :- Subscript(profile, "experiences");
    var first :- First(exps);
    var company :- Subscript(first, "company");
    var description :- Subscript(first, "description");
    var industry :- LowerOf(IndustryOf(profile.fields));
    var headline :- LowerOf(HeadlineOf(profile.fields));
    var companyLower :- LowerOf(company);
    Ok(Extracted(firstName, company.s, description, IsTech(industry, headline, companyLower)))
  }

  // ---------------------------------------------------------------------
  // Step 3: the message.
  // ---------------------------------------------------------------------

  const RapStyle := "Write the message in rap/verse format to stand out."
  const ProfessionalStyle := "Write a professional, friendly message."

  function StyleInstruction(isTech: bool): string {
    if isTech then RapStyle else ProfessionalStyle
  }

  /** What the prompt is filled in with; the template around it is fixed. */
  datatype Prompt = Prompt(style: string, firstName: Json, company: string, description: Json)

  function PromptFor(x: Extracted): Prompt {
    Prompt(StyleInstruction(x.isTech), x.firstName, x.company, x.description)
  }

  /** The language model: the text of its first content block, or the
      message of the exception the call raised. */
  type Model = Prompt -> Result<string, string>

  // ---------------------------------------------------------------------
  // The workflow.
  // ---------------------------------------------------------------------

  datatype WorkflowResult =
    | Succeeded(message: string, url: string)
    | Failed(error: Fault, url: string)

  function ChainedWorkflow(url: string, fetched: HttpOutcome, model: Model): (r: WorkflowResult)
    ensures r.url == url
  {
    match FetchProfile(fetched)
    case Err(f) => Failed(f, url)
    case Ok(profile) =>
      match ExtractProfileData(profile)
      case Err(f) => Failed(f, url)
      case Ok(x) =>
        match model(PromptFor(x))
        case Err(msg) => Failed(ModelRaised(msg), url)
        case Ok(message) => Succeeded(message, url)
  }

  // ---------------------------------------------------------------------
  // Properties.
  // ---------------------------------------------------------------------

  /** The tech test is a disjunction of substring tests, one word list per
      field. */
  lemma IsTechByWordLists(industry: string, headline: string, company: string)
    ensures IsTech(industry, headline, company)
        <==> MentionsAny(industry, TechWords) || MentionsAny(headline, HeadlineWords)
             || MentionsAny(company, CompanyWords)
  {
    if Contains(industry, "tech") { assert TechWords[0] == "tech"; }
    if Contains(industry, "software") { assert TechWords[1] == "software"; }
    if Contains(industry, "computer") { assert TechWords[2] == "computer"; }
    if Contains(headline, "tech") { assert HeadlineWords[0] == "tech"; }
    if Contains(headline, "software") { assert HeadlineWords[1] == "software"; }
    if Contains(headline, "ai") { assert HeadlineWords[2] == "ai"; }
    if Contains(company, "nvidia") { assert CompanyWords[0] == "nvidia"; }
    if Contains(company, "microsoft") { assert CompanyWords[1] == "microsoft"; }
    if Contains(company, "google") { assert CompanyWords[2] == "google"; }
  }

  /** On success the fields are copied unchanged from the profile and its
      first experience, and the tech flag is the test on the lowercased
      industry, headline and company. */
  lemma ExtractionCopiesFields(profile: Json)
    requires Extractable(profile)
    ensures var r := ExtractProfileData(profile);
      var first := profile.fields["experiences"].items[0].fields;
      && r.Ok?
      && r.value.firstName == profile.fields["first_name"]
      && r.value.company == first["company"].s
      && r.value.description == first["description"]
      && r.value.isTech == IsTech(Lower(IndustryOf(profile.fields).s), Lower(HeadlineOf(profile.fields).s),
                                  Lower(first["company"].s))
  {
  }

  /** The fields extraction cannot do without: a missing first name is the
      first thing that raises, and a profile without experiences, with an
      empty list of them, or whose first entry lacks a company or a
      description never extracts. */
  lemma RequiredFields(d: Dict)
    ensures "first_name" !in d ==> ExtractProfileData(Obj(d)) == Err(KeyMissing(Str("first_name")))
    ensures "first_name" in d && "experiences" !in d ==> ExtractProfileData(Obj(d)) == Err(KeyMissing(Str("experiences")))
    ensures "first_name" in d && "experiences" in d && d["experiences"] == Arr([])
            ==> ExtractProfileData(Obj(d)) == Err(IndexOutOfRange("list"))
    ensures "experiences" in d && d["experiences"].Arr? && |d["experiences"].items| > 0
            && d["experiences"].items[0].Obj?
            && ("company" !in d["experiences"].items[0].fields || "description" !in d["experiences"].items[0].fields)
            ==> ExtractProfileData(Obj(d)).Err?
  {
  }

  /** A `null` headline raises, although a missing one does not. */
  lemma NullHeadlineRaises(d: Dict)
    requires Extractable(Obj(d)) && "headline" !in d
    ensures ExtractProfileData(Obj(d)).Ok?
    ensures ExtractProfileData(Obj(d["headline" := Null])) == Err(NoLower("NoneType"))
  {
    var d' := d["headline" := Null];
    assert Get(d', "industry") == Get(d, "industry");
    assert IndustryOf(d') == IndustryOf(d);
  }

  /** The tests are substring tests, not word tests: "ai" inside any
      word of the headline makes the profile tech, as in "retail". */
  lemma SubstringNotWord(before: string, after: string)
    ensures IsTech("", before + "ai" + after, "")
  {
    var h := before + "ai" + after;
    assert h[|before|..|before| + 2] == "ai";
    assert OccursAt(h, "ai", |before|);
  }

  lemma RetailCountsAsTech()
    ensures IsTech("", "retail manager", "acme")
  {
    SubstringNotWord("ret", "l manager");
    assert "ret" + "ai" + "l manager" == "retail manager";
  }

  /** Capitalisation does not matter: two extractable profiles whose
      industry, headline and current company agree once lowercased get the
      same tech flag, whatever their capitals. */
  lemma TechIgnoresCase(p1: Json, p2: Json)
    requires Extractable(p1) && Extractable(p2)
    requires Lower(IndustryOf(p1.fields).s) == Lower(IndustryOf(p2.fields).s)
    requires Lower(HeadlineOf(p1.fields).s) == Lower(HeadlineOf(p2.fields).s)
    requires Lower(p1.fields["experiences"].items[0].fields["company"].s)
          == Lower(p2.fields["experiences"].items[0].fields["company"].s)
    ensures ExtractProfileData(p1).Ok? && ExtractProfileData(p2).Ok?
    ensures ExtractProfileData(p1).value.isTech == ExtractProfileData(p2).value.isTech
  {
    ExtractionCopiesFields(p1);
    ExtractionCopiesFields(p2);
  }

  /** The prompt asks for rap exactly for tech profiles. */
  lemma StyleFollowsTech(x: Extracted)
    ensures PromptFor(x).style == RapStyle <==> x.isTech
    ensures PromptFor(x).style == ProfessionalStyle <==> !x.isTech
  {
    assert RapStyle != ProfessionalStyle by { assert |RapStyle| != |ProfessionalStyle|; }
  }

  /** The workflow succeeds exactly when the fetch returned a 200 JSON
      document, extraction did not raise and the model answered; the model
      is asked exactly once, and only then. A non-200 response fails with
      its status and body. */
  lemma WorkflowOutcome(url: string, fetched: HttpOutcome, model: Model)
    ensures var r := ChainedWorkflow(url, fetched, model);
      && (r.Succeeded? <==>
            && fetched.Response? && fetched.status == 200 && fetched.body.Ok?
            && ExtractProfileData(fetched.body.value).Ok?
            && model(PromptFor(ExtractProfileData(fetched.body.value).value)).Ok?)
      && (r.Succeeded? ==> r.message == model(PromptFor(ExtractProfileData(fetched.body.value).value)).value)
      && (fetched.Response? && fetched.status != 200 ==> r == Failed(FetchFailed(fetched.status, fetched.text), url))
  {
  }
}

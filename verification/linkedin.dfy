/** The profile tool of the research agent: the data-quality report computed
    from a fetched profile, and the mapping from the HTTP outcome to the
    tool's reply. */
module LinkedIn {
  import opened Core
  import opened Text
  import opened JsonData
  import opened Http

  /** The five fields the quality report checks, in checking order. */
  datatype Field = FirstName | WorkExperience | Headline | Education | Location

  const TotalFields: nat := 5

  /** The name a missing field is reported under. */
  function FieldName(f: Field): string {
    match f
    case FirstName => "first_name"
    case WorkExperience => "work_experience"
    case Headline => "headline"
    case Education => "education"
    case Location => "location"
  }

  /** The profile key whose truthiness decides whether the field is present. */
  function FieldKey(f: Field): string {
    match f
    case FirstName => "first_name"
    case WorkExperience => "experiences"
    case Headline => "headline"
    case Education => "education"
    case Location => "location"
  }

  /** Position of a field in checking order. */
  function FieldIndex(f: Field): (i: nat)
    ensures i < TotalFields
  {
    match f
    case FirstName => 0
    case WorkExperience => 1
    case Headline => 2
    case Education => 3
    case Location => 4
  }

  /** The field checked at position `k`. */
  function FieldAt(k: nat): (f: Field)
    requires k < TotalFields
    ensures FieldIndex(f) == k
    ensures forall g :: FieldIndex(g) == k ==> g == f
  {
    [FirstName, WorkExperience, Headline, Education, Location][k]
  }

  /** `xs` lists fields in checking order, each at most once. */
  predicate InFieldOrder(xs: seq<Field>) {
    forall i, j :: 0 <= i < j < |xs| ==> FieldIndex(xs[i]) < FieldIndex(xs[j])
  }

  /** The suggestions the report can make. */
  datatype Hint = NameNotFound | NoWorkHistory | LimitedWorkHistory | NoHeadline | Incomplete

  function HintText(h: Hint): string {
    match h
    case NameNotFound => "Name not found - verify URL is correct"
    case NoWorkHistory => "No work history - may need web search for context"
    case LimitedWorkHistory => "Limited work history - consider supplementing with other sources"
    case NoHeadline => "No headline - role may be unclear"
    case Incomplete => "Profile data is incomplete - consider alternative research methods"
  }

  datatype DataQuality = High | Medium | Low

  datatype Quality = Quality(
    completenessScore: nat,
    missingFields: seq<Field>,
    dataQuality: DataQuality,
    suggestions: seq<Hint>)

  function OneIf<T>(c: bool, x: T): seq<T> {
    if c then [x] else []
  }

  /** Whether a field counts as missing from the profile: its key is absent
      or its value falsy. */
  function Absent(p: Dict): Field -> bool {
    f => !Has(p, FieldKey(f))
  }

  /** The fields from position `k` on that are absent, in checking order. */
  function MissingFrom(absent: Field -> bool, k: nat): (m: seq<Field>)
    requires k <= TotalFields
    ensures |m| <= TotalFields - k
    decreases TotalFields - k
  {
    if k == TotalFields then []
    else OneIf(absent(FieldAt(k)), FieldAt(k)) + MissingFrom(absent, k + 1)
  }

  /** The list from position `k` holds only fields from `k` on, in
      checking order. */
  lemma {:induction false} MissingFromOrdered(absent: Field -> bool, k: nat)
    requires k <= TotalFields
    ensures var m := MissingFrom(absent, k);
      && (forall i :: 0 <= i < |m| ==> k <= FieldIndex(m[i]))
      && InFieldOrder(m)
    decreases TotalFields - k
  {
    if k < TotalFields {
      MissingFromOrdered(absent, k + 1);
      var f := FieldAt(k);
      var rest := MissingFrom(absent, k + 1);
      if absent(f) {
        assert MissingFrom(absent, k) == [f] + rest;
        OrderedCons(f, rest);
      } else {
        assert MissingFrom(absent, k) == rest;
      }
    }
  }

  /** A field put before fields that all come later in checking order keeps
      the list in order. */
  lemma OrderedCons(f: Field, rest: seq<Field>)
    requires InFieldOrder(rest)
    requires forall i :: 0 <= i < |rest| ==> FieldIndex(f) < FieldIndex(rest[i])
    ensures InFieldOrder([f] + rest)
    ensures forall i :: 0 <= i < |[f] + rest| ==> FieldIndex(f) <= FieldIndex(([f] + rest)[i])
  {
    var m := [f] + rest;
    forall i, j | 0 <= i < j < |m| ensures FieldIndex(m[i]) < FieldIndex(m[j]) {
      assert m[j] == rest[j - 1];
      if i > 0 {
        assert m[i] == rest[i - 1];
      }
    }
  }

  /** A field from position `k` on is listed exactly when it is absent. */
  lemma {:induction false} MissingFromMembers(absent: Field -> bool, k: nat)
    requires k <= TotalFields
    ensures forall f :: k <= FieldIndex(f) ==> (f in MissingFrom(absent, k) <==> absent(f))
    decreases TotalFields - k
  {
    if k < TotalFields {
      MissingFromMembers(absent, k + 1);
      MissingFromOrdered(absent, k + 1);
      var f := FieldAt(k);
      var rest := MissingFrom(absent, k + 1);
      var m := MissingFrom(absent, k);
      assert m == OneIf(absent(f), f) + rest;
      forall g | k <= FieldIndex(g) ensures g in m <==> absent(g) {
        if FieldIndex(g) == k {
          assert g == f;
        } else {
          assert g in m <==> g in rest;
        }
      }
    }
  }

  /** The fields missing from a profile: exactly those whose value is
      absent or falsy, in checking order. */
  lemma MissingFields(p: Dict)
    ensures var m := MissingFrom(Absent(p), 0);
      && (forall f :: f in m <==> !Has(p, FieldKey(f)))
      && InFieldOrder(m)
  {
    MissingFromOrdered(Absent(p), 0);
    MissingFromMembers(Absent(p), 0);
    forall f ensures f in MissingFrom(Absent(p), 0) <==> !Has(p, FieldKey(f)) {
      assert Absent(p)(f) == !Has(p, FieldKey(f));
    }
  }

  /** `round(present / total_fields * 100)` for `present` in 0..5. The
      quotient is a multiple of 0.2, so the rounding is exact; the values are
      listed rather than computed by division. */
  function Score(present: nat): (s: nat)
    requires present <= TotalFields
    ensures s == 20 * present
  {
    [0, 20, 40, 60, 80, 100][present]
  }

  /** `len()` can be taken of the experiences value whenever the code asks
      for it: the value is falsy or has a length. */
  predicate Measurable(p: Dict) {
    !Has(p, "experiences") || Len(Get(p, "experiences")).Some?
  }

  /** The hints for a missing name, an absent or short work history and a
      missing headline, in that order. */
  function FieldHints(p: Dict): (h: seq<Hint>)
    requires Measurable(p)
    ensures Incomplete !in h
    ensures LimitedWorkHistory in h <==> Has(p, "experiences") && Len(Get(p, "experiences")).value < 2
  {
    var exp := Get(p, "experiences");
    OneIf(!Has(p, "first_name"), NameNotFound)
    + (if !Truthy(exp) then [NoWorkHistory] else OneIf(Len(exp).value < 2, LimitedWorkHistory))
    + OneIf(!Has(p, "headline"), NoHeadline)
  }

  /** `analyze_profile_quality`. It raises only where `len()` does: the
      experiences value is truthy but neither a string nor a container. */
  function AnalyzeProfileQuality(p: Dict): (r: Result<Quality, string>)
    ensures r.Err? <==> !Measurable(p)
    ensures r.Ok? ==>
      && (forall f :: f in r.value.missingFields <==> !Has(p, FieldKey(f)))
      && InFieldOrder(r.value.missingFields)
      && r.value.completenessScore == 20 * (TotalFields - |r.value.missingFields|)
    ensures r.Ok? ==>
      && (r.value.dataQuality == High <==> |r.value.missingFields| <= 1)
      && (r.value.dataQuality == Medium <==> |r.value.missingFields| == 2)
      && (r.value.dataQuality == Low <==> |r.value.missingFields| >= 3)
  {
    if !Measurable(p) then Err(NoLenMessage(Get(p, "experiences")))
    else Ok(Report(p))
  }

  /** The message of the `TypeError` that `len()` raises. */
  function NoLenMessage(v: Json): string {
    "object of type '" + TypeName(v) + "' has no len()"
  }

  /** The report of a profile whose experiences value `len()` accepts. */
  function Report(p: Dict): (q: Quality)
    requires Measurable(p)
    ensures (forall f :: f in q.missingFields <==> !Has(p, FieldKey(f))) && InFieldOrder(q.missingFields)
    ensures q.missingFields == MissingFrom(Absent(p), 0)
    ensures q.completenessScore == 20 * (TotalFields - |q.missingFields|)
    ensures q.dataQuality == High <==> |q.missingFields| <= 1
    ensures q.dataQuality == Medium <==> |q.missingFields| == 2
    ensures q.dataQuality == Low <==> |q.missingFields| >= 3
    ensures q.suggestions == FieldHints(p) + OneIf(q.dataQuality == Low, Incomplete)
  {
    MissingFields(p);
    Grade(MissingFrom(Absent(p), 0), FieldHints(p))
  }

  /** The score, the quality level and the closing hint for a list of
      missing fields, after the field hints. */
  function Grade(missing: seq<Field>, hints: seq<Hint>): (q: Quality)
    requires |missing| <= TotalFields
    ensures q.missingFields == missing
    ensures q.completenessScore == 20 * (TotalFields - |missing|)
    ensures q.dataQuality == High <==> |missing| <= 1
    ensures q.dataQuality == Medium <==> |missing| == 2
    ensures q.dataQuality == Low <==> |missing| >= 3
    ensures q.suggestions == hints + OneIf(q.dataQuality == Low, Incomplete)
  {
    var score := Score(TotalFields - |missing|);
    var level := if score >= 80 then High else if score >= 50 then Medium else Low;
    Quality(score, missing, level, hints + OneIf(level == Low, Incomplete))
  }

  /** How a report is assembled: the missing fields from the first check
      on, and the field hints followed by the closing hint for low quality. */
  lemma ReportParts(p: Dict)
    requires Measurable(p)
    ensures var q := AnalyzeProfileQuality(p).value;
      && q.missingFields == MissingFrom(Absent(p), 0)
      && q.suggestions == FieldHints(p) + OneIf(q.dataQuality == Low, Incomplete)
  {
  }

  /** The score is always one of 0, 20, 40, 60, 80 and 100. */
  lemma ScoreValues(p: Dict)
    requires Measurable(p)
    ensures AnalyzeProfileQuality(p).value.completenessScore in {0, 20, 40, 60, 80, 100}
  {
    var q := AnalyzeProfileQuality(p).value;
    ScoreSteps(|q.missingFields|);
  }

  /** Twenty points per present field, for any number of missing fields. */
  lemma ScoreSteps(missing: nat)
    requires missing <= TotalFields
    ensures 20 * (TotalFields - missing) in {0, 20, 40, 60, 80, 100}
  {
  }

  /** The closing "incomplete" hint is given exactly for low-quality data,
      and then as the last hint. */
  lemma IncompleteHintLast(p: Dict)
    requires Measurable(p)
    ensures var q := AnalyzeProfileQuality(p).value;
      && (Incomplete in q.suggestions <==> q.dataQuality == Low)
      && (q.dataQuality == Low ==> q.suggestions[|q.suggestions| - 1] == Incomplete)
  {
    ReportParts(p);
  }

  /** Only a non-empty work history with fewer than two entries earns the
      "limited" hint, and that case does not count as a missing field. */
  lemma LimitedHistoryHint(p: Dict)
    requires Measurable(p)
    ensures var q := AnalyzeProfileQuality(p).value;
      && (LimitedWorkHistory in q.suggestions <==>
            Has(p, "experiences") && Len(Get(p, "experiences")).value < 2)
      && (LimitedWorkHistory in q.suggestions ==> WorkExperience !in q.missingFields)
  {
    var q := AnalyzeProfileQuality(p).value;
    ReportParts(p);
    var h := FieldHints(p);
    var tail := OneIf(q.dataQuality == Low, Incomplete);
    assert LimitedWorkHistory !in tail;
    assert LimitedWorkHistory in q.suggestions <==> LimitedWorkHistory in h;
    if LimitedWorkHistory in h {
      assert Has(p, FieldKey(WorkExperience));
    }
  }

  /** One hint per missing name, per absent or short work history, per
      missing headline, plus the closing hint for low quality: a missing
      education or location adds none. */
  lemma HintCount(p: Dict)
    requires Measurable(p)
    ensures var q := AnalyzeProfileQuality(p).value;
      |q.suggestions| == (if Has(p, "first_name") then 0 else 1)
                       + (if Has(p, "experiences") && Len(Get(p, "experiences")).value >= 2 then 0 else 1)
                       + (if Has(p, "headline") then 0 else 1)
                       + (if q.dataQuality == Low then 1 else 0)
  {
    ReportParts(p);
  }

  // ---------------------------------------------------------------------
  // fetch_linkedin_profile: from the HTTP outcome to the tool reply.
  // ---------------------------------------------------------------------

  datatype FetchFailure =
    | ProfileNotFound
    | RateLimited
      /** Any other status, with at most 200 characters of the body. */
    | ApiStatus(status: nat, snippet: string)
    | Timeout
      /** Any other exception, with the text of its message. */
    | Raised(message: string)

  datatype FetchedProfile = FetchedProfile(
    firstName: Json,
    lastName: Json,
    headline: Json,
    company: Option<Json>,
    title: Option<Json>,
    location: Json,
    industry: Json,
    experiences: Json,
    education: Json,
    quality: Quality)

  /** The tool's reply: a profile, or an error reply (`is_error: True`). */
  datatype FetchReply = Fetched(profile: FetchedProfile) | Failed(failure: FetchFailure)

  predicate IsError(r: FetchReply) {
    r.Failed?
  }

  /** `str(e)` of the `AttributeError` raised by `x.get(...)` on a non-dict. */
  function NoGetMessage(v: Json): string {
    "'" + TypeName(v) + "' object has no attribute 'get'"
  }

  /** Company and title of the most recent position, `experiences[0]`, each
      defaulting to "Unknown"; both absent when there is no experience. */
  function CurrentRole(exps: Json): (r: Result<Option<(Json, Json)>, string>)
    ensures !Truthy(exps) ==> r == Ok(None)
    ensures exps.Arr? && |exps.items| > 0 && exps.items[0].Obj? ==>
      r == Ok(Some((GetOr(exps.items[0].fields, "company", Str("Unknown")),
                    GetOr(exps.items[0].fields, "title", Str("Unknown")))))
    ensures r.Ok? && r.value.Some? ==> exps.Arr? && |exps.items| > 0 && exps.items[0].Obj?
  {
    if !Truthy(exps) then Ok(None)
    else
      match exps
      case Arr(items) =>
        if items[0].Obj? then
          var e := items[0].fields;
          Ok(Some((GetOr(e, "company", Str("Unknown")), GetOr(e, "title", Str("Unknown")))))
        else Err(NoGetMessage(items[0]))
      case Str(_) => Err(NoGetMessage(Str("")))
      // Indexing a dict with 0 raises KeyError(0), whose text is "0".
      case Obj(_) => Err("0")
      case _ => Err("object of type '" + TypeName(exps) + "' has no len()")
  }

  /** The reply built from a decoded 200 response: a profile exactly when
      the document is an object, its quality can be assessed and its current
      role read; the profile then carries that report and role. */
  function FromDocument(doc: Json): (r: FetchReply)
    ensures r.Fetched? <==>
      doc.Obj? && AnalyzeProfileQuality(doc.fields).Ok?
      && CurrentRole(Get(doc.fields, "experiences")).Ok?
    ensures r.Fetched? ==>
      var role := CurrentRole(Get(doc.fields, "experiences")).value;
      && r.profile.quality == AnalyzeProfileQuality(doc.fields).value
      && r.profile.firstName == GetOr(doc.fields, "first_name", Str("Unknown"))
      && (role.None? ==> r.profile.company.None? && r.profile.title.None?)
      && (role.Some? ==> r.profile.company == Some(role.value.0) && r.profile.title == Some(role.value.1))
  {
    if !doc.Obj? then Failed(Raised(NoGetMessage(doc)))
    else
      var d := doc.fields;
      match AnalyzeProfileQuality(d)
      case Err(msg) => Failed(Raised(msg))
      case Ok(q) =>
        match CurrentRole(Get(d, "experiences"))
        case Err(msg) => Failed(Raised(msg))
        case Ok(role) =>
          Fetched(FetchedProfile(
            GetOr(d, "first_name", Str("Unknown")),
            GetOr(d, "last_name", Str("")),
            GetOr(d, "headline", Str("")),
            if role.Some? then Some(role.value.0) else None,
            if role.Some? then Some(role.value.1) else None,
            GetOr(d, "location", Str("")),
            GetOr(d, "industry", Str("")),
            GetOr(d, "experiences", Arr([])),
            GetOr(d, "education", Arr([])),
            q))
  }

  /** `fetch_linkedin_profile` after the request: a profile only for status
      200; 404, 429, any other status, a timeout and any other exception
      each give an error reply. */
  function FetchProfile(outcome: HttpOutcome): (r: FetchReply)
    ensures !IsError(r) ==> outcome.Response? && outcome.status == 200
    ensures outcome.Response? && outcome.status == 404 ==> r == Failed(ProfileNotFound)
    ensures outcome.Response? && outcome.status == 429 ==> r == Failed(RateLimited)
    ensures outcome.Response? && outcome.status !in {200, 404, 429} ==>
      r.Failed? && r.failure.ApiStatus? && r.failure.status == outcome.status
      && |r.failure.snippet| == (if |outcome.text| < 200 then |outcome.text| else 200)
      && StartsWith(outcome.text, r.failure.snippet)
    ensures outcome.Response? && outcome.status == 200 && outcome.body.Err? ==>
      r == Failed(Raised(outcome.body.error))
    ensures outcome.TimedOut? ==> r == Failed(Timeout)
    ensures outcome.RequestFailed? ==> r == Failed(Raised(outcome.message))
  {
    match outcome
    case Response(status, text, body) =>
      if status == 200 then
        match body
        case Err(msg) => Failed(Raised(msg))
        case Ok(doc) => FromDocument(doc)
      else if status == 404 then Failed(ProfileNotFound)
      else if status == 429 then Failed(RateLimited)
      else Failed(ApiStatus(status, Take(text, 200)))
    case TimedOut(_) => Failed(Timeout)
    case RequestFailed(msg) => Failed(Raised(msg))
  }

  /** A 200 response whose document is an object with either no work history
      or a list of position objects is a success; it carries the quality
      report, and the first position's company and title (or none). */
  lemma WellFormedProfileFetched(d: Dict, text: string)
    requires var e := Get(d, "experiences");
      !Truthy(e) || (e.Arr? && forall k :: 0 <= k < |e.items| ==> e.items[k].Obj?)
    ensures var r := FetchProfile(Response(200, text, Ok(Obj(d))));
      var e := Get(d, "experiences");
      && r.Fetched?
      && r.profile.quality == AnalyzeProfileQuality(d).value
      && (!Truthy(e) ==> r.profile.company == None && r.profile.title == None)
      && (Truthy(e) ==>
            r.profile.company == Some(GetOr(e.items[0].fields, "company", Str("Unknown")))
            && r.profile.title == Some(GetOr(e.items[0].fields, "title", Str("Unknown"))))
  {
    var e := Get(d, "experiences");
    assert FetchProfile(Response(200, text, Ok(Obj(d)))) == FromDocument(Obj(d));
    assert AnalyzeProfileQuality(d).Ok? by {
      assert !Truthy(e) || Len(e).Some?;
    }
    WellFormedRole(e);
  }

  /** A falsy history has no current role; a list of position objects has
      its first position's. */
  lemma WellFormedRole(e: Json)
    requires !Truthy(e) || (e.Arr? && forall k :: 0 <= k < |e.items| ==> e.items[k].Obj?)
    ensures !Truthy(e) ==> CurrentRole(e) == Ok(None)
    ensures Truthy(e) ==> CurrentRole(e) == Ok(Some((GetOr(e.items[0].fields, "company", Str("Unknown")),
                                                     GetOr(e.items[0].fields, "title", Str("Unknown")))))
  {
    if Truthy(e) {
      assert e.items[0].Obj?;
    }
  }

  /** The text of the error reply, as the agent reads it. */
  function FailureText(f: FetchFailure): string {
    match f
    case ProfileNotFound =>
      "Error: Profile not found. The username may be incorrect or the profile may be private."
      + "\n\nSuggestions:\n- Try removing hyphens from username"
      + "\n- Try common variations (firstname-lastname, firstnamelastname)"
      + "\n- Use web search to find the correct profile URL"
    case RateLimited =>
      "Error: Rate limited. Too many requests to the API."
      + "\n\nSuggestion: Wait a moment and try again, or proceed with available information."
    case ApiStatus(status, snippet) =>
      "Error fetching profile: API returned " + NatToString(status) + ": " + snippet
    case Timeout =>
      "Error: Request timed out. The API may be slow or unavailable."
      + "\n\nSuggestion: Try again or proceed with web search."
    case Raised(message) => "Error: Exception occurred: " + message
  }
}

/** The `request_human_review` tool: a reviewer's rating and remarks on a
    research summary, or a fixed sample review in demo mode, rendered as
    the text handed back to the model. */
module HumanFeedback {
  import opened Core
  import opened Text

  // ---------------------------------------------------------------------
  // The structured review and the lines it is rendered to.
  // ---------------------------------------------------------------------

  /** The result dictionary: a rating, three optional remarks (`None`
      where the reviewer declined) and the approval verdict. */
  datatype Review = Review(
    rating: nat,
    feedback: Option<string>,
    missingInfo: Option<string>,
    corrections: Option<string>,
    approved: bool)

  const HeaderPrefix := "Human Review Feedback for "
  const RatingPrefix := "- Rating: "
  const ApprovedPrefix := "- Approved: "
  const ApprovedYes := ApprovedPrefix + "Yes"
  const ApprovedNo := ApprovedPrefix + "No - needs improvement"
  const FeedbackPrefix := "- Improvement suggestions: "
  const MissingPrefix := "- Missing information: "
  const CorrectionsPrefix := "- Corrections needed: "
  const NoIssues := "- No specific issues identified"

  const SkipText := "Human review: " + "Auto-approved (skipped)." + " No specific feedback"
                    + " provided." + " The research can" + " proceed as-is."
  const AutoFeedbackText := "Add more specific" + " pain points" + " for their industry"
  const AutoMissingText := "Missing recent news" + " about the company's" + " market position"

  /** Python truthiness of a remark: present and non-empty. */
  predicate Given(o: Option<string>) {
    o.Some? && o.value != ""
  }

  function RemarkLine(prefix: string, o: Option<string>): seq<string> {
    if Given(o) then [prefix + o.value] else []
  }

  /** The lines of the reply: header, rating, verdict, each given remark in
      a fixed order, and a closing line only when no remark was given. */
  function ResponseLines(prospect: string, r: Review): seq<string> {
    [HeaderPrefix + prospect + ":",
     RatingPrefix + NatToString(r.rating) + "/5",
     if r.approved then ApprovedYes else ApprovedNo]
    + RemarkLines(r)
  }

  /** The lines after the verdict: each given remark, or the closing line
      when there is none. */
  function RemarkLines(r: Review): seq<string> {
    RemarkLine(FeedbackPrefix, r.feedback)
    + RemarkLine(MissingPrefix, r.missingInfo)
    + RemarkLine(CorrectionsPrefix, r.corrections)
    + (if !Given(r.feedback) && !Given(r.missingInfo) && !Given(r.corrections) then [NoIssues] else [])
  }

  function ResponseText(prospect: string, r: Review): string {
    Join(ResponseLines(prospect, r), '\n')
  }

  // ---------------------------------------------------------------------
  // Reading the reply back.
  // ---------------------------------------------------------------------

  datatype Report = Report(prospect: string, review: Review)

  function DecodeHeader(l: string): Option<string> {
    if |l| > |HeaderPrefix| && StartsWith(l, HeaderPrefix) && l[|l| - 1] == ':'
    then Some(l[|HeaderPrefix|..|l| - 1]) else None
  }

  function DecodeRating(l: string): Option<nat> {
    if |l| >= |RatingPrefix| + 2 && StartsWith(l, RatingPrefix) && l[|l| - 2..] == "/5"
       && IsDigits(l[|RatingPrefix|..|l| - 2])
    then Some(ParseDigits(l[|RatingPrefix|..|l| - 2])) else None
  }

  function DecodeVerdict(l: string): Option<bool> {
    if l == ApprovedYes then Some(true) else if l == ApprovedNo then Some(false) else None
  }

  /** Consumes the remark line with the given prefix, if it comes next. */
  function TakeRemark(prefix: string, rest: seq<string>): (Option<string>, seq<string>) {
    if |rest| > 0 && StartsWith(rest[0], prefix)
    then (Some(rest[0][|prefix|..]), rest[1..]) else (None, rest)
  }

  /** Recovers the prospect and the review from the reply's lines, or
      `None` when the lines are not laid out as a review reply. */
  function DecodeLines(lines: seq<string>): Option<Report> {
    if |lines| < 3 then None
    else
      var p := DecodeHeader(lines[0]);
      var n := DecodeRating(lines[1]);
      var v := DecodeVerdict(lines[2]);
      var (fb, rest1) := TakeRemark(FeedbackPrefix, lines[3..]);
      var (mi, rest2) := TakeRemark(MissingPrefix, rest1);
      var (co, rest3) := TakeRemark(CorrectionsPrefix, rest2);
      var tail := if fb.None? && mi.None? && co.None? then [NoIssues] else [];
      if p.Some? && n.Some? && v.Some? && rest3 == tail
      then Some(Report(p.value, Review(n.value, fb, mi, co, v.value)))
      else None
  }

  function DecodeText(text: string): Option<Report> {
    DecodeLines(Split(text, '\n'))
  }

  /** A remark is absent or a non-empty single line. */
  predicate WellFormedRemark(o: Option<string>) {
    o.Some? ==> o.value != "" && '\n' !in o.value
  }

  /** What a reply can carry: single-line non-empty remarks. */
  predicate WellFormed(r: Review) {
    WellFormedRemark(r.feedback) && WellFormedRemark(r.missingInfo) && WellFormedRemark(r.corrections)
  }

  lemma StartsWithConcat(p: string, v: string)
    ensures StartsWith(p + v, p) && (p + v)[|p|..] == v
  {
    assert (p + v)[..|p|] == p;
  }

  /** A line whose third character differs from the prefix's cannot start
      with it; the remark prefixes and the closing line differ there. */
  lemma NotStartsWith(l: string, p: string)
    requires |p| > 2 && |l| > 2 && l[2] != p[2]
    ensures !StartsWith(l, p)
  {
  }

  /** Third character of each line that may follow the verdict. */
  predicate ThirdCharNot(rest: seq<string>, c: char) {
    |rest| > 0 ==> |rest[0]| > 2 && rest[0][2] != c
  }

  lemma {:induction false} TakeRemarkOf(prefix: string, o: Option<string>, rest: seq<string>)
    requires |prefix| > 2 && WellFormedRemark(o) && ThirdCharNot(rest, prefix[2])
    ensures TakeRemark(prefix, RemarkLine(prefix, o) + rest) == (o, rest)
  {
    if o.Some? {
      StartsWithConcat(prefix, o.value);
      assert (RemarkLine(prefix, o) + rest)[1..] == rest;
    } else {
      assert RemarkLine(prefix, o) + rest == rest;
      if |rest| > 0 {
        NotStartsWith(rest[0], prefix);
      }
    }
  }

  lemma HeaderRoundTrip(prospect: string)
    ensures DecodeHeader(HeaderPrefix + prospect + ":") == Some(prospect)
  {
    var l := HeaderPrefix + prospect + ":";
    assert l == HeaderPrefix + (prospect + ":");
    StartsWithConcat(HeaderPrefix, prospect + ":");
    assert l[|HeaderPrefix|..|l| - 1] == prospect;
  }

  lemma RatingRoundTrip(n: nat)
    ensures DecodeRating(RatingPrefix + NatToString(n) + "/5") == Some(n)
  {
    var d := NatToString(n);
    var l := RatingPrefix + d + "/5";
    assert l == RatingPrefix + (d + "/5");
    StartsWithConcat(RatingPrefix, d + "/5");
    assert l[|RatingPrefix|..|l| - 2] == d;
    assert l[|l| - 2..] == "/5";
    ParseNatToString(n);
  }

  /** The closing lines of a reply, after the verdict, read back as the
      remarks they were rendered from. */
  lemma {:induction false} RemarksRoundTrip(r: Review)
    requires WellFormed(r)
    ensures var (fb, rest1) := TakeRemark(FeedbackPrefix, RemarkLines(r));
      var (mi, rest2) := TakeRemark(MissingPrefix, rest1);
      var (co, rest3) := TakeRemark(CorrectionsPrefix, rest2);
      && fb == r.feedback && mi == r.missingInfo && co == r.corrections
      && rest3 == (if fb.None? && mi.None? && co.None? then [NoIssues] else [])
  {
    var tail := if !Given(r.feedback) && !Given(r.missingInfo) && !Given(r.corrections) then [NoIssues] else [];
    var c := RemarkLine(CorrectionsPrefix, r.corrections) + tail;
    var m := RemarkLine(MissingPrefix, r.missingInfo) + c;
    var f := RemarkLine(FeedbackPrefix, r.feedback) + m;
    assert NoIssues[2] == 'N';
    assert CorrectionsPrefix[2] == 'C';
    assert MissingPrefix[2] == 'M';
    assert FeedbackPrefix[2] == 'I';
    TakeRemarkOf(CorrectionsPrefix, r.corrections, tail);
    assert ThirdCharNot(c, 'M') by {
      if r.corrections.Some? { assert c[0] == CorrectionsPrefix + r.corrections.value; }
    }
    TakeRemarkOf(MissingPrefix, r.missingInfo, c);
    assert ThirdCharNot(m, 'I') by {
      if r.missingInfo.Some? { assert m[0] == MissingPrefix + r.missingInfo.value; }
    }
    TakeRemarkOf(FeedbackPrefix, r.feedback, m);
    assert RemarkLines(r) == f;
  }

  /** Each verdict line reads back as the verdict it states. */
  lemma VerdictRoundTrip()
    ensures DecodeVerdict(ApprovedYes) == Some(true) && DecodeVerdict(ApprovedNo) == Some(false)
  {
    assert ApprovedYes[13] != ApprovedNo[13];
  }

  /** Three head lines that decode, followed by remark lines that decode,
      decode as a whole. */
  lemma DecodeAssembled(p: string, r: Review, l0: string, l1: string, l2: string, rest: seq<string>)
    requires DecodeHeader(l0) == Some(p)
    requires DecodeRating(l1) == Some(r.rating)
    requires DecodeVerdict(l2) == Some(r.approved)
    requires var (fb, rest1) := TakeRemark(FeedbackPrefix, rest);
      var (mi, rest2) := TakeRemark(MissingPrefix, rest1);
      var (co, rest3) := TakeRemark(CorrectionsPrefix, rest2);
      && fb == r.feedback && mi == r.missingInfo && co == r.corrections
      && rest3 == (if fb.None? && mi.None? && co.None? then [NoIssues] else [])
    ensures DecodeLines([l0, l1, l2] + rest) == Some(Report(p, r))
  {
    var lines := [l0, l1, l2] + rest;
    assert lines[0] == l0 && lines[1] == l1 && lines[2] == l2;
    assert lines[3..] == rest;
  }

  /** Reading the lines of a reply back gives the prospect and the review
      they were rendered from. */
  lemma LinesRoundTrip(prospect: string, r: Review)
    requires WellFormed(r)
    ensures DecodeLines(ResponseLines(prospect, r)) == Some(Report(prospect, r))
  {
    var l0 := HeaderPrefix + prospect + ":";
    var l1 := RatingPrefix + NatToString(r.rating) + "/5";
    var l2 := if r.approved then ApprovedYes else ApprovedNo;
    HeaderRoundTrip(prospect);
    RatingRoundTrip(r.rating);
    RemarksRoundTrip(r);
    VerdictRoundTrip();
    assert ResponseLines(prospect, r) == [l0, l1, l2] + RemarkLines(r);
    DecodeAssembled(prospect, r, l0, l1, l2, RemarkLines(r));
  }

  lemma NoNewlineDigits(s: string)
    requires IsDigits(s)
    ensures '\n' !in s
  {
  }

  predicate SingleLines(ls: seq<string>) {
    forall k :: 0 <= k < |ls| ==> '\n' !in ls[k]
  }

  lemma SingleLinesConcat(a: seq<string>, b: seq<string>)
    requires SingleLines(a) && SingleLines(b)
    ensures SingleLines(a + b)
  {
    forall k | 0 <= k < |a + b| ensures '\n' !in (a + b)[k] {
      if k >= |a| { assert (a + b)[k] == b[k - |a|]; }
    }
  }

  lemma HeadTextsSingleLine()
    ensures '\n' !in HeaderPrefix && '\n' !in RatingPrefix
  {
  }

  lemma VerdictTextsSingleLine()
    ensures '\n' !in ApprovedYes && '\n' !in ApprovedNo
  {
    assert '\n' !in ApprovedPrefix && '\n' !in "No - needs improvement";
  }

  lemma RemarkTextsSingleLine()
    ensures '\n' !in FeedbackPrefix && '\n' !in MissingPrefix
  {
  }

  lemma ClosingTextsSingleLine()
    ensures '\n' !in CorrectionsPrefix && '\n' !in NoIssues
  {
  }

  lemma RemarkLineSingle(prefix: string, o: Option<string>)
    requires '\n' !in prefix && WellFormedRemark(o)
    ensures SingleLines(RemarkLine(prefix, o))
  {
  }

  /** Every line of a reply is a single line when the prospect's name is. */
  lemma LinesSingle(prospect: string, r: Review)
    requires WellFormed(r) && '\n' !in prospect
    ensures SingleLines(ResponseLines(prospect, r))
  {
    HeadTextsSingleLine();
    VerdictTextsSingleLine();
    RemarkTextsSingleLine();
    ClosingTextsSingleLine();
    NoNewlineDigits(NatToString(r.rating));
    var head := [HeaderPrefix + prospect + ":",
                 RatingPrefix + NatToString(r.rating) + "/5",
                 if r.approved then ApprovedYes else ApprovedNo];
    assert SingleLines(head);
    RemarkLineSingle(FeedbackPrefix, r.feedback);
    RemarkLineSingle(MissingPrefix, r.missingInfo);
    RemarkLineSingle(CorrectionsPrefix, r.corrections);
    var tail := if !Given(r.feedback) && !Given(r.missingInfo) && !Given(r.corrections) then [NoIssues] else [];
    assert SingleLines(tail);
    var r1 := RemarkLine(FeedbackPrefix, r.feedback);
    var r2 := RemarkLine(MissingPrefix, r.missingInfo);
    var r3 := RemarkLine(CorrectionsPrefix, r.corrections);
    SingleLinesConcat(r1, r2);
    SingleLinesConcat(r1 + r2, r3);
    SingleLinesConcat(r1 + r2 + r3, tail);
    SingleLinesConcat(head, RemarkLines(r));
  }

  /** The reply text reads back as the prospect and the review it was
      rendered from, so no two reviews render to the same text. */
  lemma ResponseRoundTrip(prospect: string, r: Review)
    requires WellFormed(r) && '\n' !in prospect
    ensures DecodeText(ResponseText(prospect, r)) == Some(Report(prospect, r))
  {
    LinesSingle(prospect, r);
    SplitJoin(ResponseLines(prospect, r), '\n');
    LinesRoundTrip(prospect, r);
  }

  // ---------------------------------------------------------------------
  // Collecting the review from the reviewer's answers.
  // ---------------------------------------------------------------------

  /** What the reviewer typed at the four prompts, before stripping. */
  datatype Answers = Answers(rating: string, feedback: string, missing: string, corrections: string)

  /** `rating.strip().lower() == 'skip'`. */
  predicate IsSkip(rating: string) {
    Lower(Strip(rating)) == "skip"
  }

  /** A stripped rating: its value clamped to 1..5 when it is all digits,
      else 3. */
  function ParseRating(s: string): (n: nat)
    ensures 1 <= n <= 5
    ensures !IsDigits(s) ==> n == 3
    ensures IsDigits(s) && 1 <= ParseDigits(s) <= 5 ==> n == ParseDigits(s)
    ensures IsDigits(s) && ParseDigits(s) == 0 ==> n == 1
    ensures IsDigits(s) && ParseDigits(s) > 5 ==> n == 5
  {
    if IsDigits(s) then
      var v := ParseDigits(s);
      if v < 1 then 1 else if v > 5 then 5 else v
    else 3
  }

  /** A stripped remark, or `None` for `none`, `n` or nothing, in any case. */
  function Remark(raw: string): (o: Option<string>)
    ensures o.None? <==> Lower(Strip(raw)) in ["none", "n", ""]
    ensures o.Some? ==> o.value == Strip(raw) && o.value != ""
  {
    var s := Strip(raw);
    if Lower(s) in ["none", "n", ""] then None else Some(s)
  }

  /** The interactive review, when the reviewer did not skip. */
  function Collect(a: Answers): (r: Review)
    ensures 1 <= r.rating <= 5
    ensures r.approved <==> r.rating >= 4
    ensures r.feedback == Remark(a.feedback) && r.missingInfo == Remark(a.missing)
         && r.corrections == Remark(a.corrections)
  {
    var n := ParseRating(Strip(a.rating));
    Review(n, Remark(a.feedback), Remark(a.missing), Remark(a.corrections), n >= 4)
  }

  /** The sample review of demo mode. */
  const AutoReview := Review(3, Some(AutoFeedbackText), Some(AutoMissingText), None, false)

  /** The demo-mode reply, spelled out as one text as the tool writes it. */
  function AutoText(prospect: string): string {
    var header := HeaderPrefix + prospect + ":";
    var rating := "- Rating: 3/5";
    var verdict := "- Approved: No - needs improvement";
    var improvements := "- Improvement suggestions: " + AutoFeedbackText;
    var missing := "- Missing information: " + AutoMissingText;
    header + "\n" + rating + "\n" + verdict + "\n" + improvements + "\n" + missing
  }

  /** The tool: demo mode when the `AUTO_FEEDBACK` variable is set to a
      true spelling, else the reviewer's answers, where `skip` approves
      without remarks. */
  function RequestHumanReview(autoFeedback: Option<string>, prospect: string, a: Answers): (text: string)
    ensures FlagEnabled(autoFeedback) ==> text == AutoText(prospect)
    ensures !FlagEnabled(autoFeedback) && IsSkip(a.rating) ==> text == SkipText
    ensures !FlagEnabled(autoFeedback) && !IsSkip(a.rating) ==> text == ResponseText(prospect, Collect(a))
  {
    if FlagEnabled(autoFeedback) then AutoText(prospect)
    else if IsSkip(a.rating) then SkipText
    else ResponseText(prospect, Collect(a))
  }

  // ---------------------------------------------------------------------
  // Properties.
  // ---------------------------------------------------------------------

  /** Typing a rating from 1 to 5 records exactly that rating, and only a
      rating of 4 or 5 approves. */
  lemma RatingTyped(n: nat)
    requires 1 <= n <= 5
    ensures ParseRating(NatToString(n)) == n
    ensures (ParseRating(NatToString(n)) >= 4) <==> n >= 4
  {
    ParseNatToString(n);
  }

  /** Out-of-range and non-numeric ratings. */
  lemma RatingExamples()
    ensures ParseRating("0") == 1 && ParseRating("9") == 5 && ParseRating("42") == 5
    ensures ParseRating("") == 3 && ParseRating("-2") == 3 && ParseRating("4.5") == 3
  {
    assert ParseDigits("4") == 4;
    assert ParseDigits("42") == 42 by { assert "42"[..1] == "4"; }
    assert !IsDigit('-') && !IsDigit('.');
    assert "4.5"[1] == '.';
  }

  lemma JoinCons(x: string, rest: seq<string>, sep: char)
    requires |rest| > 0
    ensures Join([x] + rest, sep) == x + [sep] + Join(rest, sep)
  {
    assert ([x] + rest)[1..] == rest;
  }

  lemma Join5(a: string, b: string, c: string, d: string, e: string, sep: char)
    ensures Join([a, b, c, d, e], sep) == a + [sep] + b + [sep] + c + [sep] + d + [sep] + e
  {
    assert [d, e] == [d] + [e];
    JoinCons(d, [e], sep);
    assert [c, d, e] == [c] + [d, e];
    JoinCons(c, [d, e], sep);
    assert [b, c, d, e] == [b] + [c, d, e];
    JoinCons(b, [c, d, e], sep);
    assert [a, b, c, d, e] == [a] + [b, c, d, e];
    JoinCons(a, [b, c, d, e], sep);
  }

  lemma AutoLines(prospect: string)
    ensures ResponseLines(prospect, AutoReview)
         == [HeaderPrefix + prospect + ":", "- Rating: 3/5", "- Approved: No - needs improvement",
             FeedbackPrefix + AutoFeedbackText, MissingPrefix + AutoMissingText]
  {
    assert NatToString(3) == "3";
    assert RatingPrefix + NatToString(3) + "/5" == "- Rating: 3/5";
    assert ApprovedNo == "- Approved: No - needs improvement";
  }

  /** The demo-mode text is the reply the interactive path renders for the
      sample review. */
  lemma AutoTextFollowsFormat(prospect: string)
    ensures AutoText(prospect) == ResponseText(prospect, AutoReview)
  {
    AutoLines(prospect);
    assert "\n" == ['\n'];
    Join5(HeaderPrefix + prospect + ":", "- Rating: 3/5", "- Approved: No - needs improvement",
          FeedbackPrefix + AutoFeedbackText, MissingPrefix + AutoMissingText, '\n');
  }

  lemma AutoTextsSingleLine()
    ensures '\n' !in AutoFeedbackText && '\n' !in AutoMissingText
  {
    assert '\n' !in "Add more specific" && '\n' !in " pain points" && '\n' !in " for their industry";
    assert '\n' !in "Missing recent news" && '\n' !in " about the company's" && '\n' !in " market position";
  }

  /** In demo mode the reply reads back as the sample review: rating 3, not
      approved, two remarks and no corrections. */
  lemma AutoReplyDecodes(autoFeedback: Option<string>, prospect: string, a: Answers)
    requires FlagEnabled(autoFeedback) && '\n' !in prospect
    ensures DecodeText(RequestHumanReview(autoFeedback, prospect, a)) == Some(Report(prospect, AutoReview))
    ensures !AutoReview.approved && AutoReview.rating == 3 && AutoReview.corrections.None?
  {
    assert RequestHumanReview(autoFeedback, prospect, a) == AutoText(prospect);
    AutoTextFollowsFormat(prospect);
    AutoTextsSingleLine();
    ResponseRoundTrip(prospect, AutoReview);
  }

  /** An interactive review reads back with the rating in 1..5, approval
      exactly at 4 or more, and each remark as typed, stripped, unless it
      was declined. */
  lemma InteractiveReplyDecodes(autoFeedback: Option<string>, prospect: string, a: Answers)
    requires !FlagEnabled(autoFeedback) && !IsSkip(a.rating)
    requires '\n' !in prospect && '\n' !in a.feedback && '\n' !in a.missing && '\n' !in a.corrections
    ensures var d := DecodeText(RequestHumanReview(autoFeedback, prospect, a));
      && d.Some? && d.value.prospect == prospect
      && 1 <= d.value.review.rating <= 5
      && (d.value.review.approved <==> d.value.review.rating >= 4)
      && d.value.review.feedback == Remark(a.feedback)
      && d.value.review.missingInfo == Remark(a.missing)
      && d.value.review.corrections == Remark(a.corrections)
  {
    var r := Collect(a);
    StripSingleLine(a.feedback);
    StripSingleLine(a.missing);
    StripSingleLine(a.corrections);
    ResponseRoundTrip(prospect, r);
  }

  lemma StripSingleLine(s: string)
    requires '\n' !in s
    ensures '\n' !in Strip(s)
  {
  }

  lemma SkipTextSingleLine()
    ensures '\n' !in SkipText
  {
    assert '\n' !in "Human review: " && '\n' !in "Auto-approved (skipped).";
    assert '\n' !in " No specific feedback" && '\n' !in " provided.";
    assert '\n' !in " The research can" && '\n' !in " proceed as-is.";
  }

  /** A skipped review is not a review reply: it does not read back. */
  lemma SkipIsNotAReview(autoFeedback: Option<string>, prospect: string, a: Answers)
    requires !FlagEnabled(autoFeedback) && IsSkip(a.rating)
    ensures DecodeText(RequestHumanReview(autoFeedback, prospect, a)).None?
  {
    assert RequestHumanReview(autoFeedback, prospect, a) == SkipText;
    SkipTextSingleLine();
    SplitNoSeparator(SkipText, '\n');
  }

  /** The closing line appears exactly when the reviewer gave no remark. */
  lemma NoIssuesLine(prospect: string, r: Review)
    requires WellFormed(r)
    ensures NoIssues in ResponseLines(prospect, r) <==> r.feedback.None? && r.missingInfo.None? && r.corrections.None?
  {
    var lines := ResponseLines(prospect, r);
    assert NoIssues[2] == 'N' && NoIssues[0] == '-';
    assert HeaderPrefix[0] == 'H';
    assert RatingPrefix[2] == 'R' && ApprovedYes[2] == 'A' && ApprovedNo[2] == 'A';
    assert FeedbackPrefix[2] == 'I' && MissingPrefix[2] == 'M' && CorrectionsPrefix[2] == 'C';
    forall k | 0 <= k < |lines| && lines[k] == NoIssues
      ensures !Given(r.feedback) && !Given(r.missingInfo) && !Given(r.corrections)
    {
      if k == 0 {
        assert lines[0][0] == 'H';
      }
    }
  }
}

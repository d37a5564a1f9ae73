/** The derivations of the recruiter's job page (src/pages/HR/JobDetailPage.tsx):
    the colour band of a circular score, the guard that keeps the
    applications list an array, the match-count caption, the capped tag row
    with its overflow badge, which scores an application card shows, the
    public link and the description shown. */
module JobDetailPage {
  import opened Wrappers
  import opened Strings
  import opened Json

  // ---------------------------------------------------------------------------
  // Score colours

  /** The colour band of a score. */
  datatype Band = Green | Yellow | Orange | Red

  /** The bands, best first, by their inclusive lower thresholds. */
  function BandOf(score: real): (b: Band)
    ensures b == Green <==> score >= 80.0
    ensures b == Yellow <==> 60.0 <= score < 80.0
    ensures b == Orange <==> 40.0 <= score < 60.0
    ensures b == Red <==> score < 40.0
  {
    if score >= 80.0 then Green
    else if score >= 60.0 then Yellow
    else if score >= 40.0 then Orange
    else Red
  }

  /** How good a band is: red lowest, green highest. */
  function Rank(b: Band): nat {
    match b
    case Red => 0
    case Orange => 1
    case Yellow => 2
    case Green => 3
  }

  /** A higher score never falls into a worse band. */
  lemma BandMonotone(a: real, b: real)
    requires a <= b
    ensures Rank(BandOf(a)) <= Rank(BandOf(b))
  {
  }

  /** The Tailwind text class, background class and stroke colour of each band. */
  function TextClass(b: Band): string {
    match b
    case Green => "text-green-500"
    case Yellow => "text-yellow-500"
    case Orange => "text-orange-500"
    case Red => "text-red-500"
  }

  function BackgroundClass(b: Band): string {
    match b
    case Green => "bg-green-500"
    case Yellow => "bg-yellow-500"
    case Orange => "bg-orange-500"
    case Red => "bg-red-500"
  }

  function StrokeHex(b: Band): string {
    match b
    case Green => "#22c55e"
    case Yellow => "#eab308"
    case Orange => "#f97316"
    case Red => "#ef4444"
  }

  /** Each palette tells the bands apart. */
  lemma PalettesDistinguishBands(a: Band, b: Band)
    requires a != b
    ensures TextClass(a) != TextClass(b)
    ensures BackgroundClass(a) != BackgroundClass(b)
    ensures StrokeHex(a) != StrokeHex(b)
  {
  }

  /** `getScoreColor`. */
  function ScoreColor(score: real): (r: string)
    ensures r == TextClass(BandOf(score))
  {
    if score >= 80.0 then "text-green-500"
    else if score >= 60.0 then "text-yellow-500"
    else if score >= 40.0 then "text-orange-500"
    else "text-red-500"
  }

  /** `getScoreBgColor`. */
  function ScoreBgColor(score: real): (r: string)
    ensures r == BackgroundClass(BandOf(score))
  {
    if score >= 80.0 then "bg-green-500"
    else if score >= 60.0 then "bg-yellow-500"
    else if score >= 40.0 then "bg-orange-500"
    else "bg-red-500"
  }

  /** `getStrokeColor`. */
  function StrokeColor(score: real): (r: string)
    ensures r == StrokeHex(BandOf(score))
  {
    if score >= 80.0 then "#22c55e"
    else if score >= 60.0 then "#eab308"
    else if score >= 40.0 then "#f97316"
    else "#ef4444"
  }

  /** The three colour functions always pick the same band: two scores get
      the same text colour exactly when they get the same stroke colour and
      the same background. */
  lemma ColoursAgree(a: real, b: real)
    ensures ScoreColor(a) == ScoreColor(b) <==> BandOf(a) == BandOf(b)
    ensures StrokeColor(a) == StrokeColor(b) <==> BandOf(a) == BandOf(b)
    ensures ScoreBgColor(a) == ScoreBgColor(b) <==> BandOf(a) == BandOf(b)
  {
    if BandOf(a) != BandOf(b) {
      PalettesDistinguishBands(BandOf(a), BandOf(b));
    }
  }

  // ---------------------------------------------------------------------------
  // Applications

  /** The applications state once the fetch has settled: the value when it is
      an array, otherwise (another value, or a failure) the empty list. */
  function Applications(outcome: Result<Json, string>): (r: seq<Json>)
    ensures outcome.Success? && outcome.value.Arr? ==> r == outcome.value.items
    ensures !(outcome.Success? && outcome.value.Arr?) ==> r == []
  {
    match outcome
    case Success(Arr(items)) => items
    case _ => []
  }

  const SingleMatchCaption: string := "1 match found"

  /** The singular caption's count reads back as one. */
  lemma SingleCaptionReadsOne()
    ensures DigitsValue(LeadingDigits(SingleMatchCaption)) == 1
    ensures NatToString(1) + " match found" == SingleMatchCaption
  {
    NumberPrefix(1, " match found");
  }

  /** The caption under "Candidate Matches": the count, then "match" for
      exactly one application and "matches" otherwise, then "found". */
  function CountLabel(n: nat): (r: string)
    // the caption starts with the count, which reads back as `n`
    ensures DigitsValue(LeadingDigits(r)) == n
    ensures |r| > 6 && r[|r| - 6..] == " found"
    // the noun is singular exactly when there is one application
    ensures n == 1 <==> r == SingleMatchCaption
    // any other count is written out in front of the plural noun
    ensures n != 1 ==> r == NatToString(n) + " matches found"
  {
    var tail := if n == 1 then " match found" else " matches found";
    assert tail[|tail| - 6..] == " found";
    var r := NatToString(n) + tail;
    assert r[|r| - 6..] == tail[|tail| - 6..];
    NumberPrefix(n, tail);
    SingleCaptionReadsOne();
    r
  }

  // ---------------------------------------------------------------------------
  // Tags

  /** At most this many tags are shown on a card. */
  const TagLimit: nat := 12

  /** The tag row: the tags shown and the overflow badge, if any. */
  datatype TagRow = TagRow(shown: seq<Json>, badge: Option<string>)

  /** The tag row of an application, `None` when it has no tags. */
  function TagRowOf(tags: seq<Json>): (r: Option<TagRow>)
    ensures r.None? <==> |tags| == 0
    // the first twelve tags, in order
    ensures r.Some? ==> |r.value.shown| == (if |tags| <= TagLimit then |tags| else TagLimit)
                        && r.value.shown == tags[..|r.value.shown|]
    // a "+N more" badge exactly when some tags are hidden, counting them
    ensures r.Some? ==> (r.value.badge.Some? <==> |tags| > TagLimit)
    ensures r.Some? && r.value.badge.Some? ==>
              var b := r.value.badge.value;
              && |b| > 6 && b[0] == '+' && b[|b| - 5..] == " more"
              && |r.value.shown| + DigitsValue(LeadingDigits(b[1..])) == |tags|
    // the badge is exactly "+", the number of hidden tags, and " more"
    ensures r.Some? && r.value.badge.Some? ==>
              r.value.badge.value == "+" + NatToString(|tags| - TagLimit) + " more"
  {
    if |tags| == 0 then None
    else if |tags| <= TagLimit then Some(TagRow(tags, None))
    else
      var hidden := |tags| - TagLimit;
      var badge := "+" + NatToString(hidden) + " more";
      assert badge[1..] == NatToString(hidden) + " more";
      NumberPrefix(hidden, " more");
      Some(TagRow(tags[..TagLimit], Some(badge)))
  }

  // ---------------------------------------------------------------------------
  // Scores on an application card

  /** The score in the card's circle: the unified score, else the alignment
      score. `application.scores` is read without `?.`, so the application
      must not be `null` or `undefined`. */
  function CardUnifiedScore(application: Json): (r: Json)
    requires !IsNullish(application)
    ensures r == FirstTruthy([OptGet(Get(application, "scores"), "unifiedScore"), Get(application, "alignmentScore")])
  {
    OrPairIsFirstTruthy(OptGet(Get(application, "scores"), "unifiedScore"), Get(application, "alignmentScore"));
    Or(OptGet(Get(application, "scores"), "unifiedScore"), Get(application, "alignmentScore"))
  }

  /** The résumé score line, shown only when the résumé score is truthy and
      is not the very score in the circle. */
  function ResumeLine(application: Json): (r: Option<Json>)
    requires !IsNullish(application)
    ensures r.Some? <==> Truthy(OptGet(Get(application, "scores"), "resumeScore"))
                         && !StrictEquals(OptGet(Get(application, "scores"), "resumeScore"), CardUnifiedScore(application))
    ensures r.Some? ==> r.value == OptGet(Get(application, "scores"), "resumeScore") && Truthy(r.value)
  {
    var resume := OptGet(Get(application, "scores"), "resumeScore");
    if Truthy(resume) && !StrictEquals(resume, CardUnifiedScore(application)) then Some(resume) else None
  }

  /** Equal numeric scores never show the résumé line twice over. */
  lemma SameScoreHidesResumeLine(application: Json, n: int)
    requires !IsNullish(application)
    requires OptGet(Get(application, "scores"), "resumeScore") == Num(n)
    requires CardUnifiedScore(application) == Num(n)
    ensures ResumeLine(application).None?
  {
  }

  /** What one application card shows of its scores. */
  datatype CardScores = CardScores(circle: Json, resumeLine: Option<Json>)

  /** The scores of every application card, in order. A `null` or
      `undefined` application makes the rendering throw, shown as `None`. */
  function ApplicationCardScores(applications: seq<Json>): (r: Option<seq<CardScores>>)
    ensures r.None? <==> exists i :: 0 <= i < |applications| && IsNullish(applications[i])
    ensures r.Some? ==> |r.value| == |applications|
                        && forall i :: 0 <= i < |applications| ==>
                             r.value[i] == CardScores(CardUnifiedScore(applications[i]), ResumeLine(applications[i]))
  {
    if exists i :: 0 <= i < |applications| && IsNullish(applications[i]) then None
    else Some(seq(|applications|, i requires 0 <= i < |applications| && !IsNullish(applications[i]) =>
                CardScores(CardUnifiedScore(applications[i]), ResumeLine(applications[i]))))
  }

  /** What `{resumeScore && resumeScore !== unifiedScore && (...)}` renders
      as written. React prints a number the `&&` chain stops at, so a résumé
      score of 0 shows a bare "0"; `false`, `null`, `undefined` and the empty
      string show nothing. */
  datatype ResumeSlot = Blank | StrayText(text: string) | Line(score: Json)

  /** The résumé slot under "Match Score" as the code is written. */
  function ResumeSlotAsWritten(application: Json): (r: ResumeSlot)
    requires !IsNullish(application)
    // the line itself appears exactly when `ResumeLine` shows it
    ensures r.Line? <==> ResumeLine(application).Some?
    ensures r.Line? ==> r.score == ResumeLine(application).value
    // a stray "0" appears exactly for a résumé score of 0
    ensures r.StrayText? <==> OptGet(Get(application, "scores"), "resumeScore") == Num(0)
    ensures r.StrayText? ==> r.text == "0"
  {
    var resume := OptGet(Get(application, "scores"), "resumeScore");
    if resume == Num(0) then StrayText("0")
    else match ResumeLine(application)
      case Some(v) => Line(v)
      case None => Blank
  }

  /** A résumé score of 0 with a unified score of 70: the code as written
      prints "0" where the corrected `ResumeLine` shows nothing. */
  lemma ZeroResumeScoreShowsZero()
    ensures var app := Obj([("scores", Obj([("resumeScore", Num(0)), ("unifiedScore", Num(70))]))]);
            ResumeSlotAsWritten(app) == StrayText("0") && ResumeLine(app).None?
  {
    var scores := Obj([("resumeScore", Num(0)), ("unifiedScore", Num(70))]);
    var app := Obj([("scores", scores)]);
    assert Get(app, "scores") == scores;
    assert OptGet(scores, "resumeScore") == Num(0);
  }

  // ---------------------------------------------------------------------------
  // Tags read from an application

  /** A string of decimal digits with a positive value. */
  predicate SpellsPositive(s: string) {
    |s| > 0 && AllDigits(s) && DigitsValue(s) > 0
  }

  /** `v > 0` for a `length` value, converting `v` to a number as JavaScript
      does: a boolean is 0 or 1, `null` is 0, `undefined` and an object are
      NaN, and a string (an array through `String(...)`) is the number it
      spells. */
  predicate GreaterThanZero(v: Json) {
    match v
    case Num(n) => n > 0
    case Bool(b) => b
    case Str(s) => SpellsPositive(s)
    case Arr(_) => SpellsPositive(ToJsString(v))
    case _ => false
  }

  /** The tag row of an application's `tags` value, under
      `tags && tags.length > 0`: `Some(None)` when there is no row, and
      `None` when the rendering throws, because a value other than an array
      that passes the guard has no `slice(...).map`. */
  function CardTags(tags: Json): (r: Option<Option<TagRow>>)
    ensures r.None? <==> Truthy(tags) && !tags.Arr? && GreaterThanZero(LengthOf(tags))
    // a row is shown only for a non-empty array, and it is that array's row
    ensures r.Some? && r.value.Some? ==> tags.Arr? && |tags.items| > 0
    ensures tags.Arr? ==> r == Some(TagRowOf(tags.items))
    // a non-empty string always throws
    ensures tags.Str? && |tags.s| > 0 ==> r.None?
  {
    if !Truthy(tags) then Some(None)
    else if tags.Arr? then Some(TagRowOf(tags.items))
    else if GreaterThanZero(LengthOf(tags)) then None
    else Some(None)
  }

  /** What one application card shows of its scores and tags. */
  datatype ApplicationCard = ApplicationCard(scores: CardScores, tags: Option<TagRow>)

  /** Rendering one application throws: it is `null` or `undefined`, or its
      tags pass the guard without being an array. */
  predicate CardThrows(application: Json) {
    IsNullish(application) || CardTags(Get(application, "tags")).None?
  }

  /** The scores and tag row of every application card, in order; `None`
      when rendering one of them throws. */
  function ApplicationCards(applications: seq<Json>): (r: Option<seq<ApplicationCard>>)
    ensures r.None? <==> exists i :: 0 <= i < |applications| && CardThrows(applications[i])
    ensures r.Some? ==> |r.value| == |applications|
                        && forall i :: 0 <= i < |applications| ==>
                             && r.value[i].scores == CardScores(CardUnifiedScore(applications[i]), ResumeLine(applications[i]))
                             && Some(r.value[i].tags) == CardTags(Get(applications[i], "tags"))
  {
    if exists i :: 0 <= i < |applications| && CardThrows(applications[i]) then None
    else Some(seq(|applications|, i requires 0 <= i < |applications| && !CardThrows(applications[i]) =>
                ApplicationCard(CardScores(CardUnifiedScore(applications[i]), ResumeLine(applications[i])),
                                CardTags(Get(applications[i], "tags")).value)))
  }

  /** The full cards agree with the score part: whenever every card renders,
      the scores are those `ApplicationCardScores` gives. */
  lemma CardsKeepScores(applications: seq<Json>)
    ensures ApplicationCards(applications).Some? ==>
              && ApplicationCardScores(applications).Some?
              && forall i :: 0 <= i < |applications| ==>
                   ApplicationCards(applications).value[i].scores == ApplicationCardScores(applications).value[i]
  {
  }

  /** String tags make the card throw, though its scores are fine. */
  lemma StringTagsThrow(s: string)
    requires |s| > 0
    ensures var app := Obj([("tags", Str(s))]);
            ApplicationCardScores([app]).Some? && ApplicationCards([app]).None?
  {
    var app := Obj([("tags", Str(s))]);
    assert Get(app, "tags") == Str(s);
    assert CardThrows([app][0]);
  }

  /** The caption above the cards counts exactly the cards listed. */
  lemma CaptionCountsCards(outcome: Result<Json, string>)
    ensures DigitsValue(LeadingDigits(CountLabel(|Applications(outcome)|))) == |Applications(outcome)|
    ensures ApplicationCards(Applications(outcome)).Some? ==>
              |ApplicationCards(Applications(outcome)).value| == |Applications(outcome)|
  {
  }

  // ---------------------------------------------------------------------------
  // Job header

  const AgentPathPrefix: string := "/agent/"

  /** The in-app path of the public job page. */
  function AgentPath(id: Json): (r: string)
    ensures |r| >= |AgentPathPrefix| && r[..|AgentPathPrefix|] == AgentPathPrefix
    ensures r[|AgentPathPrefix|..] == ToJsString(id)
  {
    AgentPathPrefix + ToJsString(id)
  }

  /** The shareable link: the page's origin, then the public page's path. */
  function PublicLink(origin: string, id: Json): (r: string)
    ensures |r| >= |origin| && r[..|origin|] == origin
    ensures r[|origin|..] == AgentPath(id)
    ensures r[|origin| + |AgentPathPrefix|..] == ToJsString(id)
  {
    origin + AgentPath(id)
  }

  /** The description shown: the enhanced one, else the one typed in. */
  function Description(job: Json): (r: Json)
    ensures r == FirstTruthy([Get(job, "enhanced_jd"), Get(job, "raw_jd")])
  {
    OrPairIsFirstTruthy(Get(job, "enhanced_jd"), Get(job, "raw_jd"));
    Or(Get(job, "enhanced_jd"), Get(job, "raw_jd"))
  }

  /** What the page shows before its body. */
  datatype PageView = Loading | NotFound | Details(job: Json)

  /** A spinner while loading, "Job not found" without a job, else the job. */
  function View(isLoading: bool, job: Json): (r: PageView)
    ensures r.Loading? <==> isLoading
    ensures r.NotFound? <==> !isLoading && !Truthy(job)
    ensures r.Details? ==> r.job == job && Truthy(job)
  {
    if isLoading then Loading
    else if !Truthy(job) then NotFound
    else Details(job)
  }
}

/** What the candidate profile drawer
    (src/components/Recruiter/CandidateProfileDrawer.tsx) derives from the
    loosely-shaped candidate it is given before rendering: the résumé
    sections with their defaults, the scores and the score cards, the contact
    links, the header's avatar letter, subtitle and location, the summary,
    and the skill categories with their labels. Every field is resolved by a
    `||` chain, stated here as "the first truthy of these sources, in this
    order". */
module ProfileDrawer {
  import opened Wrappers
  import opened Strings
  import opened Json

  // ---------------------------------------------------------------------------
  // Résumé sections

  /** The résumé and its sections, each defaulted when missing. */
  datatype Sections = Sections(
    resume: Json, contact: Json, experience: Json,
    education: Json, projects: Json, skills: Json)

  /** `v || d` for a truthy default `d`: never falsy. */
  function WithDefault(v: Json, d: Json): (r: Json)
    requires Truthy(d)
    ensures r == FirstTruthy([v, d])
    ensures Truthy(r) && (Truthy(v) ==> r == v)
  {
    OrPairIsFirstTruthy(v, d);
    Or(v, d)
  }

  /** The résumé: the candidate's own, then the nested candidate's, then `{}`. */
  function ParsedResume(candidate: Json): (r: Json)
    ensures r == FirstTruthy([Get(candidate, "parsedResume"),
                              OptGet(Get(candidate, "candidate"), "parsedResume"),
                              Obj([])])
    ensures Truthy(r)
  {
    OrTripleIsFirstTruthy(Get(candidate, "parsedResume"), OptGet(Get(candidate, "candidate"), "parsedResume"), Obj([]));
    Or(Or(Get(candidate, "parsedResume"), OptGet(Get(candidate, "candidate"), "parsedResume")), Obj([]))
  }

  /** The résumé sections, or `None` when there is no candidate and the
      drawer renders nothing. */
  function ResolveSections(candidate: Json): (r: Option<Sections>)
    ensures r.None? <==> !Truthy(candidate)
    ensures r.Some? ==> r.value.resume == ParsedResume(candidate)
    // each section: the résumé's own when truthy, else an empty object or list
    ensures r.Some? ==> r.value.contact == FirstTruthy([Get(r.value.resume, "contact"), Obj([])])
    ensures r.Some? ==> r.value.experience == FirstTruthy([Get(r.value.resume, "experience"), Arr([])])
    ensures r.Some? ==> r.value.education == FirstTruthy([Get(r.value.resume, "education"), Arr([])])
    ensures r.Some? ==> r.value.projects == FirstTruthy([Get(r.value.resume, "projects"), Arr([])])
    ensures r.Some? ==> r.value.skills == FirstTruthy([Get(r.value.resume, "skills"), Obj([])])
    // none of them is ever null or undefined, so reading into them never throws
    ensures r.Some? ==> && Truthy(r.value.resume) && Truthy(r.value.contact)
                        && Truthy(r.value.experience) && Truthy(r.value.education)
                        && Truthy(r.value.projects) && Truthy(r.value.skills)
  {
    if !Truthy(candidate) then None
    else
      var resume := ParsedResume(candidate);
      Some(Sections(
        resume := resume,
        contact := WithDefault(Get(resume, "contact"), Obj([])),
        experience := WithDefault(Get(resume, "experience"), Arr([])),
        education := WithDefault(Get(resume, "education"), Arr([])),
        projects := WithDefault(Get(resume, "projects"), Arr([])),
        skills := WithDefault(Get(resume, "skills"), Obj([]))))
  }

  // ---------------------------------------------------------------------------
  // Scores

  /** The scores object, `{}` when the candidate has none. */
  function Scores(candidate: Json): Json {
    Or(Get(candidate, "scores"), Obj([]))
  }

  /** The overall score: the scores object's, then the match score, then the
      alignment score. */
  function UnifiedScore(candidate: Json): (r: Json)
    ensures r == FirstTruthy([Get(Scores(candidate), "unifiedScore"),
                              Get(candidate, "matchScore"),
                              Get(candidate, "alignmentScore")])
  {
    OrTripleIsFirstTruthy(Get(Scores(candidate), "unifiedScore"), Get(candidate, "matchScore"), Get(candidate, "alignmentScore"));
    Or(Or(Get(Scores(candidate), "unifiedScore"), Get(candidate, "matchScore")), Get(candidate, "alignmentScore"))
  }

  /** The résumé score: the scores object's, then the candidate's own. */
  function ResumeScore(candidate: Json): (r: Json)
    ensures r == FirstTruthy([Get(Scores(candidate), "resumeScore"), Get(candidate, "resumeScore")])
  {
    OrPairIsFirstTruthy(Get(Scores(candidate), "resumeScore"), Get(candidate, "resumeScore"));
    Or(Get(Scores(candidate), "resumeScore"), Get(candidate, "resumeScore"))
  }

  /** The four score cards. */
  datatype ScoreKind = Unified | Resume | GitHub | Compensation

  /** The `id` each card carries. */
  function KindId(k: ScoreKind): string {
    match k
    case Unified => "unified"
    case Resume => "resume"
    case GitHub => "github"
    case Compensation => "compensation"
  }

  /** Where a card sits in the fixed order. */
  function Rank(k: ScoreKind): nat {
    match k
    case Unified => 0
    case Resume => 1
    case GitHub => 2
    case Compensation => 3
  }

  /** The kind at each place of the fixed order. */
  function KindAt(i: nat): (k: ScoreKind)
    requires i < 4
    ensures Rank(k) == i
  {
    if i == 0 then Unified else if i == 1 then Resume else if i == 2 then GitHub else Compensation
  }

  /** A score card. */
  datatype ScoreItem = ScoreItem(kind: ScoreKind, title: string, value: Json, description: Json)

  const CompensationFallback: string := "Salary expectation alignment"

  /** The compensation card's description. */
  function CompensationText(scores: Json): (r: Json)
    ensures r == FirstTruthy([Get(scores, "compensationAnalysis"), Str(CompensationFallback)])
    ensures Truthy(r)
  {
    OrPairIsFirstTruthy(Get(scores, "compensationAnalysis"), Str(CompensationFallback));
    Or(Get(scores, "compensationAnalysis"), Str(CompensationFallback))
  }

  /** The card of one kind, whatever its value. */
  function Card(kind: ScoreKind, candidate: Json): (it: ScoreItem)
    ensures it.kind == kind
    ensures kind == Unified ==> it.value == UnifiedScore(candidate)
    ensures kind == Resume ==> it.value == ResumeScore(candidate)
    ensures kind == GitHub ==> it.value == Get(Scores(candidate), "githubPortfolioScore")
    ensures kind == Compensation ==> it.value == Get(Scores(candidate), "compensationScore")
                                     && it.description == CompensationText(Scores(candidate))
  {
    var scores := Scores(candidate);
    match kind
    case Unified =>
      ScoreItem(Unified, "Overall Match", UnifiedScore(candidate), Str("Combined score based on all factors"))
    case Resume =>
      ScoreItem(Resume, "Resume Score", ResumeScore(candidate), Str("Based on skills and experience match"))
    case GitHub =>
      ScoreItem(GitHub, "GitHub / Portfolio", Get(scores, "githubPortfolioScore"), Str("Code quality and project impact"))
    case Compensation =>
      ScoreItem(Compensation, "Compensation", Get(scores, "compensationScore"), CompensationText(scores))
  }

  /** The four cards in their fixed order, before any is dropped. */
  function AllScoreItems(candidate: Json): (r: seq<ScoreItem>)
    ensures |r| == 4
    ensures forall i :: 0 <= i < |r| ==> Rank(r[i].kind) == i && r[i] == Card(r[i].kind, candidate)
  {
    seq(4, i requires 0 <= i < 4 => Card(KindAt(i), candidate))
  }

  /** The items whose value is neither `undefined` nor `null`, in order. */
  function Present(items: seq<ScoreItem>): (r: seq<ScoreItem>)
    ensures forall it :: it in r <==> it in items && !IsNullish(it.value)
    ensures |r| <= |items|
  {
    if |items| == 0 then []
    else if IsNullish(items[0].value) then Present(items[1..])
    else [items[0]] + Present(items[1..])
  }

  /** `Present` keeps the order of the items it is given. */
  lemma {:induction false} PresentKeepsOrder(items: seq<ScoreItem>)
    requires forall i, j :: 0 <= i < j < |items| ==> Rank(items[i].kind) < Rank(items[j].kind)
    ensures forall i, j :: 0 <= i < j < |Present(items)| ==> Rank(Present(items)[i].kind) < Rank(Present(items)[j].kind)
    decreases |items|
  {
    if |items| > 0 {
      PresentKeepsOrder(items[1..]);
      var rest := Present(items[1..]);
      forall it | it in rest ensures Rank(items[0].kind) < Rank(it.kind) {
        var j :| 0 <= j < |items[1..]| && items[1..][j] == it;
        assert items[j + 1] == it;
      }
    }
  }

  /** The score cards shown: unified, résumé, GitHub, compensation, in that
      order, each only when its value is present. A score of 0 is present. */
  function ScoreItems(candidate: Json): (r: seq<ScoreItem>)
    ensures forall it :: it in r <==> it in AllScoreItems(candidate) && !IsNullish(it.value)
    ensures forall i, j :: 0 <= i < j < |r| ==> Rank(r[i].kind) < Rank(r[j].kind)
    // the unified card is shown exactly when the unified score is present
    ensures (exists it :: it in r && it.kind == Unified) <==> !IsNullish(UnifiedScore(candidate))
    // the compensation card explains itself with the analysis, or a fixed text
    ensures forall it :: it in r && it.kind == Compensation ==> it.description == CompensationText(Scores(candidate))
  {
    var all := AllScoreItems(candidate);
    PresentKeepsOrder(all);
    assert all[0] in all;
    Present(all)
  }

  // ---------------------------------------------------------------------------
  // Contact links

  datatype Links = Links(linkedin: Json, github: Json, portfolio: Json, email: Json, phone: Json)

  /** The profile links: the résumé's contact first; for the web profiles
      then the nested candidate, then the candidate's `socialLinks`; for the
      e-mail and phone then the candidate itself. */
  function ResolveLinks(candidate: Json, contact: Json): (r: Links)
    requires !IsNullish(contact)
    ensures r.linkedin == FirstTruthy([Get(contact, "linkedin"), OptGet(Get(candidate, "candidate"), "linkedin"),
                                       OptGet(Get(candidate, "socialLinks"), "linkedin")])
    ensures r.github == FirstTruthy([Get(contact, "github"), OptGet(Get(candidate, "candidate"), "github"),
                                     OptGet(Get(candidate, "socialLinks"), "github")])
    ensures r.portfolio == FirstTruthy([Get(contact, "portfolio"), OptGet(Get(candidate, "candidate"), "portfolio"),
                                        OptGet(Get(candidate, "socialLinks"), "portfolio")])
    ensures r.email == FirstTruthy([Get(contact, "email"), Get(candidate, "email")])
    ensures r.phone == FirstTruthy([Get(contact, "phone"), Get(candidate, "phone")])
  {
    var nested := Get(candidate, "candidate");
    var social := Get(candidate, "socialLinks");
    OrTripleIsFirstTruthy(Get(contact, "linkedin"), OptGet(nested, "linkedin"), OptGet(social, "linkedin"));
    OrTripleIsFirstTruthy(Get(contact, "github"), OptGet(nested, "github"), OptGet(social, "github"));
    OrTripleIsFirstTruthy(Get(contact, "portfolio"), OptGet(nested, "portfolio"), OptGet(social, "portfolio"));
    OrPairIsFirstTruthy(Get(contact, "email"), Get(candidate, "email"));
    OrPairIsFirstTruthy(Get(contact, "phone"), Get(candidate, "phone"));
    Links(
      linkedin := Or(Or(Get(contact, "linkedin"), OptGet(nested, "linkedin")), OptGet(social, "linkedin")),
      github := Or(Or(Get(contact, "github"), OptGet(nested, "github")), OptGet(social, "github")),
      portfolio := Or(Or(Get(contact, "portfolio"), OptGet(nested, "portfolio")), OptGet(social, "portfolio")),
      email := Or(Get(contact, "email"), Get(candidate, "email")),
      phone := Or(Get(contact, "phone"), Get(candidate, "phone")))
  }

  // ---------------------------------------------------------------------------
  // Header and summary

  const DefaultInitial: string := "C"

  /** The avatar letter, `name?.charAt(0) || 'C'`. `None` when the name is
      neither a string nor `null`/`undefined`: such a value has no `charAt`
      and the call throws. */
  function AvatarInitial(name: Json): (r: Option<string>)
    ensures r.Some? <==> name.Str? || IsNullish(name)
    ensures r.Some? ==> |r.value| == 1
    ensures name.Str? && |name.s| > 0 ==> r == Some([name.s[0]])
    ensures r.Some? && !(name.Str? && |name.s| > 0) ==> r.value == DefaultInitial
  {
    match name
    case Undefined => Some(DefaultInitial)
    case Null => Some(DefaultInitial)
    case Str(s) => if |s| > 0 then Some([s[0]]) else Some(DefaultInitial)
    case _ => None
  }

  /** The line under the name: the candidate's role, then the first
      experience's title, then "Candidate"; never blank. */
  function Subtitle(candidate: Json, experience: Json): (r: Json)
    requires !IsNullish(experience)
    ensures r == FirstTruthy([Get(candidate, "role"), OptGet(Index0(experience), "title"), Str("Candidate")])
    ensures Truthy(r)
  {
    OrTripleIsFirstTruthy(Get(candidate, "role"), OptGet(Index0(experience), "title"), Str("Candidate"));
    Or(Or(Get(candidate, "role"), OptGet(Index0(experience), "title")), Str("Candidate"))
  }

  /** The header location, shown only when it is truthy: the candidate's,
      then the first experience's. */
  function HeaderLocation(candidate: Json, experience: Json): (r: Option<Json>)
    requires !IsNullish(experience)
    ensures r.Some? <==> Truthy(Get(candidate, "location")) || Truthy(OptGet(Index0(experience), "location"))
    ensures r.Some? ==> Truthy(r.value)
                        && r.value == FirstTruthy([Get(candidate, "location"), OptGet(Index0(experience), "location")])
  {
    var loc := Or(Get(candidate, "location"), OptGet(Index0(experience), "location"));
    OrPairIsFirstTruthy(Get(candidate, "location"), OptGet(Index0(experience), "location"));
    if Truthy(loc) then Some(loc) else None
  }

  /** The overview summary: the résumé summary, the résumé profile, the
      candidate's bio, or a fixed text. */
  function Summary(candidate: Json, resume: Json): (r: Json)
    requires !IsNullish(resume)
    ensures r == FirstTruthy([Get(resume, "resumeSummary"), Get(resume, "profile"),
                              Get(candidate, "bio"), Str("No summary provided.")])
    ensures Truthy(r)
  {
    OrQuadIsFirstTruthy(Get(resume, "resumeSummary"), Get(resume, "profile"), Get(candidate, "bio"), Str("No summary provided."));
    Or(Or(Or(Get(resume, "resumeSummary"), Get(resume, "profile")), Get(candidate, "bio")), Str("No summary provided."))
  }

  // ---------------------------------------------------------------------------
  // Skill categories

  /** `s.replace(/([A-Z])/g, ' $1')`: a space before every upper-case letter. */
  function SpaceBeforeUpper(s: string): (r: string)
    ensures |r| >= |s|
  {
    if |s| == 0 then "" else Respelled(s[0]) + SpaceBeforeUpper(s[1..])
  }

  /** What the replacement makes of one character. */
  function Respelled(c: char): string {
    if IsUpper(c) then [' ', c] else [c]
  }

  /** Character by character: the result is each character of `s` in turn,
      with a space put in front of each upper-case one. */
  lemma {:induction false} SpaceBeforeUpperChars(s: string)
    ensures SpaceBeforeUpper(s) == Concat(seq(|s|, i requires 0 <= i < |s| => Respelled(s[i])))
    decreases |s|
  {
    var pieces := seq(|s|, i requires 0 <= i < |s| => Respelled(s[i]));
    if |s| > 0 {
      SpaceBeforeUpperChars(s[1..]);
      assert pieces[1..] == seq(|s[1..]|, i requires 0 <= i < |s[1..]| => Respelled(s[1..][i]));
    }
  }

  /** The replacement works character by character, so it distributes over
      concatenation. */
  lemma {:induction false} SpaceBeforeUpperAppend(a: string, b: string)
    ensures SpaceBeforeUpper(a + b) == SpaceBeforeUpper(a) + SpaceBeforeUpper(b)
    decreases |a|
  {
    if |a| == 0 {
      assert a + b == b;
    } else {
      var h := Respelled(a[0]);
      SpaceBeforeUpperAppend(a[1..], b);
      assert (a + b)[0] == a[0] && (a + b)[1..] == a[1..] + b;
      calc {
        SpaceBeforeUpper(a + b);
        h + SpaceBeforeUpper(a[1..] + b);
        h + (SpaceBeforeUpper(a[1..]) + SpaceBeforeUpper(b));
        (h + SpaceBeforeUpper(a[1..])) + SpaceBeforeUpper(b);
      }
    }
  }

  predicate NoUpper(s: string) {
    forall i :: 0 <= i < |s| ==> !IsUpper(s[i])
  }

  lemma {:induction false} SpaceBeforeUpperNoUpper(s: string)
    requires NoUpper(s)
    ensures SpaceBeforeUpper(s) == s
    decreases |s|
  {
    if |s| > 0 {
      SpaceBeforeUpperNoUpper(s[1..]);
    }
  }

  /** The label of a skill category, `category.replace(/([A-Z])/g, ' $1').trim()`. */
  function CategoryLabel(category: string): (r: string)
    // the spaced key with only its leading and trailing whitespace cut away
    ensures exists i :: 0 <= i <= |SpaceBeforeUpper(category)| - |r| && SpaceBeforeUpper(category)[i..i + |r|] == r
                        && AllSpace(SpaceBeforeUpper(category)[..i]) && AllSpace(SpaceBeforeUpper(category)[i + |r|..])
    ensures |r| > 0 ==> !IsSpace(r[0]) && !IsSpace(r[|r| - 1])
  {
    Trim(SpaceBeforeUpper(category))
  }

  /** A camel-case word: capitalised after the first, with no other capitals. */
  predicate CamelPiece(w: string, first: bool) {
    && |w| > 0 && NoSpace(w)
    && (if first then NoUpper(w) else IsUpper(w[0]) && NoUpper(w[1..]))
  }

  /** Trimming a string that neither starts nor ends with whitespace leaves it
      unchanged. */
  lemma TrimUntrimmed(s: string)
    requires |s| > 0 && !IsSpace(s[0]) && !IsSpace(s[|s| - 1])
    ensures Trim(s) == s
  {
  }

  /** Each word with a space in front of it. */
  function Spaced(ws: seq<string>): (r: seq<string>)
    ensures |r| == |ws| && forall k :: 0 <= k < |ws| ==> r[k] == " " + ws[k]
  {
    seq(|ws|, k requires 0 <= k < |ws| => " " + ws[k])
  }

  /** Dropping the first word commutes with spacing. */
  lemma SpacedTail(ws: seq<string>)
    requires |ws| > 0
    ensures Spaced(ws)[1..] == Spaced(ws[1..])
  {
  }

  /** Spelling out a camel-case tail: each capitalised piece gets a space in
      front of it. */
  lemma {:induction false} SpaceBeforeUpperPieces(ws: seq<string>)
    requires forall k :: 0 <= k < |ws| ==> CamelPiece(ws[k], false)
    ensures SpaceBeforeUpper(Concat(ws)) == Concat(Spaced(ws))
    decreases |ws|
  {
    if |ws| > 0 {
      var w, rest := ws[0], ws[1..];
      SpaceBeforeUpperPieces(rest);
      SpaceBeforeUpperAppend(w, Concat(rest));
      SpaceBeforeCapitalised(w);
      SpacedTail(ws);
      calc {
        SpaceBeforeUpper(Concat(ws));
        SpaceBeforeUpper(w + Concat(rest));
        SpaceBeforeUpper(w) + SpaceBeforeUpper(Concat(rest));
        (" " + w) + Concat(Spaced(rest));
        Spaced(ws)[0] + Concat(Spaced(ws)[1..]);
        Concat(Spaced(ws));
      }
    }
  }

  /** A capitalised piece gets one space, in front. */
  lemma SpaceBeforeCapitalised(w: string)
    requires |w| > 0 && IsUpper(w[0]) && NoUpper(w[1..])
    ensures SpaceBeforeUpper(w) == " " + w
  {
    SpaceBeforeUpperNoUpper(w[1..]);
    assert SpaceBeforeUpper(w) == [' ', w[0]] + w[1..];
    assert [' ', w[0]] + w[1..] == " " + w;
  }

  /** `Join(ws, sep)` is the first word followed by `sep` before each other word. */
  lemma {:induction false} JoinAsConcat(ws: seq<string>)
    requires |ws| > 0
    ensures Join(ws, " ") == ws[0] + Concat(Spaced(ws[1..]))
    decreases |ws|
  {
    if |ws| > 1 {
      JoinAsConcat(ws[1..]);
      SpacedTail(ws[1..]);
    }
  }

  /** Spacing a camel-case key joins its pieces with single spaces. */
  lemma CamelCaseSpaced(ws: seq<string>)
    requires |ws| > 0 && CamelPiece(ws[0], true)
    requires forall k :: 1 <= k < |ws| ==> CamelPiece(ws[k], false)
    ensures SpaceBeforeUpper(Concat(ws)) == Join(ws, " ")
  {
    var tail := ws[1..];
    assert Concat(ws) == ws[0] + Concat(tail);
    SpaceBeforeUpperAppend(ws[0], Concat(tail));
    SpaceBeforeUpperNoUpper(ws[0]);
    SpaceBeforeUpperPieces(tail);
    JoinAsConcat(ws);
  }

  lemma CamelPiecesAreWords(ws: seq<string>)
    requires |ws| > 0 && CamelPiece(ws[0], true)
    requires forall k :: 1 <= k < |ws| ==> CamelPiece(ws[k], false)
    ensures forall k :: 0 <= k < |ws| ==> |ws[k]| > 0 && NoSpace(ws[k])
  {
    forall k | 0 <= k < |ws| ensures |ws[k]| > 0 && NoSpace(ws[k]) {
      assert CamelPiece(ws[k], k == 0);
    }
  }

  /** A camel-case key such as `programmingLanguages` is labelled with its
      pieces separated by single spaces, "programming Languages". */
  lemma CamelCaseLabel(ws: seq<string>)
    requires |ws| > 0 && CamelPiece(ws[0], true)
    requires forall k :: 1 <= k < |ws| ==> CamelPiece(ws[k], false)
    ensures CategoryLabel(Concat(ws)) == Join(ws, " ")
  {
    CamelPiecesAreWords(ws);
    CamelCaseSpaced(ws);
    JoinEnds(ws);
    TrimUntrimmed(Join(ws, " "));
  }

  /** Splitting such a label on whitespace gives the key's pieces back. */
  lemma CamelCaseLabelWords(ws: seq<string>)
    requires |ws| > 0 && CamelPiece(ws[0], true)
    requires forall k :: 1 <= k < |ws| ==> CamelPiece(ws[k], false)
    ensures Words(CategoryLabel(Concat(ws))) == ws
  {
    CamelCaseLabel(ws);
    CamelPiecesAreWords(ws);
    WordsOfJoin(ws);
  }

  /** A space-join of non-empty, space-free words starts and ends with a word character. */
  lemma {:induction false} JoinEnds(ws: seq<string>)
    requires |ws| > 0 && forall k :: 0 <= k < |ws| ==> |ws[k]| > 0 && NoSpace(ws[k])
    ensures var j := Join(ws, " ");
            |j| > 0 && j[0] == ws[0][0] && j[|j| - 1] == ws[|ws| - 1][|ws[|ws| - 1]| - 1]
    decreases |ws|
  {
    if |ws| > 1 {
      JoinEnds(ws[1..]);
    }
  }

  /** A category is skipped when its items are falsy or have length 0. */
  predicate Shown(items: Json) {
    Truthy(items) && LengthOf(items) != Num(0)
  }

  /** The skill categories the skills tab lists, as (label, items) in key
      order, the skipped ones left out. A shown category whose items are not
      an array has no `map`, and the tab fails to render: `None`. */
  function Categories(entries: Fields<Json>): (r: Option<seq<(string, Json)>>)
    ensures r.None? <==> exists e :: e in entries && Shown(e.1) && !e.1.Arr?
    ensures r.Some? ==> |r.value| <= |entries|
    // in key order, each shown entry once
    ensures r.Some? ==> r.value == Listing(entries)
    ensures r.Some? ==> forall e :: e in entries && Shown(e.1) ==> (CategoryLabel(e.0), e.1) in r.value
    ensures r.Some? ==> forall x :: x in r.value ==>
              Shown(x.1) && x.1.Arr? && exists e :: e in entries && x == (CategoryLabel(e.0), e.1)
  {
    if |entries| == 0 then Some([])
    else
      var head := entries[0];
      assert entries == [head] + entries[1..];
      if Shown(head.1) && !head.1.Arr? then None
      else match Categories(entries[1..])
        case None => None
        case Some(rest) => Some(Listed(head) + rest)
  }

  /** The shown entries under their labels, in key order: what the tab
      lists when nothing fails. */
  function Listing(entries: Fields<Json>): seq<(string, Json)> {
    if |entries| == 0 then []
    else Listed(entries[0]) + Listing(entries[1..])
  }

  /** One entry's part of the listing. */
  function Listed(e: (string, Json)): seq<(string, Json)> {
    if Shown(e.1) then [(CategoryLabel(e.0), e.1)] else []
  }

  /** The listing goes entry by entry: the listing of two runs of entries is
      the listing of the first followed by that of the second. */
  lemma {:induction false} ListingAppend(a: Fields<Json>, b: Fields<Json>)
    ensures Listing(a + b) == Listing(a) + Listing(b)
    decreases |a|
  {
    if |a| == 0 {
      assert a + b == b;
    } else {
      assert (a + b)[0] == a[0] && (a + b)[1..] == a[1..] + b;
      ListingAppend(a[1..], b);
    }
  }

  /** One entry is listed once, under its label, exactly when it is shown. */
  lemma ListingSingle(e: (string, Json))
    ensures Listing([e]) == if Shown(e.1) then [(CategoryLabel(e.0), e.1)] else []
  {
    assert [e][1..] == [];
    assert Listing([e]) == Listed(e) + Listing([]);
  }

  /** The categories of the résumé's skills object. */
  function SkillCategories(skills: Json): (r: Option<seq<(string, Json)>>)
    ensures r.Some? ==> r.value == Listing(OwnEntries(skills))
    ensures r.None? <==> exists e :: e in OwnEntries(skills) && Shown(e.1) && !e.1.Arr?
    ensures r.Some? ==> forall e :: e in OwnEntries(skills) && Shown(e.1) ==> (CategoryLabel(e.0), e.1) in r.value
    ensures r.Some? ==> forall x :: x in r.value ==>
              Shown(x.1) && x.1.Arr? && exists e :: e in OwnEntries(skills) && x == (CategoryLabel(e.0), e.1)
  {
    Categories(OwnEntries(skills))
  }
}

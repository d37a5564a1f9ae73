/** The bio highlighting of a search-result card
    (src/components/Recruiter/CandidateCard.tsx): the query's longer words
    and the candidate's skills become a list of lower-case terms, the bio is
    split around every case-insensitive occurrence of a term, and a part is
    highlighted when it is one of the terms. The regular expression the
    source builds is modelled by what it does: its terms are escaped, so
    each alternative matches literally, and the split scans left to right
    trying the alternatives in list order. */
module CandidateCard {
  import opened Wrappers
  import opened Strings

  // ---------------------------------------------------------------------------
  // Term list

  /** Query words shorter than this many characters plus one are not terms. */
  const MinTermLength: nat := 2

  /** The words of `ws` longer than `MinTermLength`, in order. */
  function LongWords(ws: seq<string>): (r: seq<string>)
    ensures forall t :: t in r <==> t in ws && |t| > MinTermLength
    ensures |r| <= |ws|
  {
    if |ws| == 0 then []
    else if |ws[0]| > MinTermLength then [ws[0]] + LongWords(ws[1..])
    else LongWords(ws[1..])
  }

  /** Filtering distributes over concatenation: the long words of a list are
      those of its front followed by those of its back, so together with
      `LongWordsSingle` they keep the order and the repetitions of `ws`. */
  lemma {:induction false} LongWordsAppend(a: seq<string>, b: seq<string>)
    ensures LongWords(a + b) == LongWords(a) + LongWords(b)
    decreases |a|
  {
    if |a| > 0 {
      assert (a + b)[0] == a[0] && (a + b)[1..] == a[1..] + b;
      LongWordsAppend(a[1..], b);
    } else {
      assert a + b == b;
    }
  }

  /** A single word is kept exactly when it is longer than `MinTermLength`. */
  lemma LongWordsSingle(w: string)
    ensures LongWords([w]) == if |w| > MinTermLength then [w] else []
  {
    assert [w][1..] == [];
  }

  /** `query.toLowerCase().split(/\s+/).filter(t => t.length > 2)`: the
      empty pieces `split` yields at leading or trailing whitespace are too
      short to survive the filter, so they are left out from the start. */
  function QueryTerms(query: string): (r: seq<string>)
    ensures forall t :: t in r <==> t in Words(Lower(query)) && |t| > MinTermLength
    ensures forall k :: 0 <= k < |r| ==> NoSpace(r[k]) && Lower(r[k]) == r[k]
  {
    var ws := Words(Lower(query));
    var r := LongWords(ws);
    forall k | 0 <= k < |r| ensures NoSpace(r[k]) && Lower(r[k]) == r[k] {
      assert r[k] in ws;
      var w := r[k];
      forall i | 0 <= i < |w| ensures !IsUpper(w[i]) {
        assert w[i] in Lower(query);
      }
      assert Lower(w) == w;
    }
    r
  }

  /** `keywords.map(k => k.toLowerCase())`. */
  function LowerAll(ws: seq<string>): (r: seq<string>)
    ensures |r| == |ws|
    ensures forall k :: 0 <= k < |ws| ==> r[k] == Lower(ws[k])
  {
    seq(|ws|, k requires 0 <= k < |ws| => Lower(ws[k]))
  }

  predicate Distinct<T(==)>(xs: seq<T>) {
    forall i, j :: 0 <= i < j < |xs| ==> xs[i] != xs[j]
  }

  /** Where `x` first occurs in `xs`. */
  function FirstIndex<T(==)>(xs: seq<T>, x: T): (i: nat)
    requires x in xs
    ensures i < |xs| && xs[i] == x
    ensures forall j :: 0 <= j < i ==> xs[j] != x
  {
    if xs[0] == x then 0 else 1 + FirstIndex(xs[1..], x)
  }

  /** An element of a prefix first occurs in the whole list where it first
      occurs in the prefix. */
  lemma FirstIndexOfPrefix<T>(xs: seq<T>, n: nat, x: T)
    requires n <= |xs| && x in xs[..n]
    ensures FirstIndex(xs, x) == FirstIndex(xs[..n], x)
  {
    var i := FirstIndex(xs[..n], x);
    assert forall k :: 0 <= k < n ==> xs[..n][k] == xs[k];
  }

  /** `[...new Set(xs)]`: every value once, at the place it first occurs. */
  function Dedup<T(==,!new)>(xs: seq<T>): (r: seq<T>)
    ensures forall x :: x in r <==> x in xs
    ensures Distinct(r)
    decreases |xs|
  {
    if |xs| == 0 then []
    else
      var init := xs[..|xs| - 1];
      var last := xs[|xs| - 1];
      var d := Dedup(init);
      assert xs == init + [last];
      if last in d then d else d + [last]
  }

  /** The values come out in the order of their first occurrences. */
  lemma {:induction false} DedupOrder<T(!new)>(xs: seq<T>)
    ensures forall i, j :: 0 <= i < j < |Dedup(xs)| ==> FirstIndex(xs, Dedup(xs)[i]) < FirstIndex(xs, Dedup(xs)[j])
    decreases |xs|
  {
    if |xs| > 0 {
      var init := xs[..|xs| - 1];
      var last := xs[|xs| - 1];
      var d := Dedup(init);
      DedupOrder(init);
      assert xs == init + [last];
      forall x | x in d ensures FirstIndex(xs, x) == FirstIndex(init, x) {
        FirstIndexOfPrefix(xs, |xs| - 1, x);
      }
      if last !in d {
        assert FirstIndex(xs, last) == |xs| - 1;
      }
    }
  }

  /** Every term is non-empty: an empty alternative would match everywhere. */
  predicate NonEmptyTerms(terms: seq<string>) {
    forall k :: 0 <= k < |terms| ==> |terms[k]| > 0
  }

  /** `[...new Set([...queryTerms, ...skillTerms])]`: the query terms, then the
      lower-cased skills, each distinct term once, first occurrence first. */
  function HighlightTerms(query: string, skills: seq<string>): (r: seq<string>)
    requires NonEmptyTerms(skills)
    ensures forall t :: t in r <==> t in QueryTerms(query) || t in LowerAll(skills)
    ensures Distinct(r) && NonEmptyTerms(r)
    ensures forall i, j :: 0 <= i < j < |r| ==>
              FirstIndex(QueryTerms(query) + LowerAll(skills), r[i])
              < FirstIndex(QueryTerms(query) + LowerAll(skills), r[j])
  {
    var all := QueryTerms(query) + LowerAll(skills);
    DedupOrder(all);
    Dedup(all)
  }

  /** The lower-case words of a query typed as words separated by single
      spaces, all longer than two characters, are exactly its terms. */
  lemma QueryTermsOfWords(ws: seq<string>)
    requires forall k :: 0 <= k < |ws| ==> |ws[k]| > MinTermLength && NoSpace(ws[k]) && Lower(ws[k]) == ws[k]
    ensures QueryTerms(Join(ws, " ")) == ws
  {
    JoinLower(ws);
    WordsOfJoin(ws);
    LongWordsKeepsLong(ws);
  }

  lemma {:induction false} LongWordsKeepsLong(ws: seq<string>)
    requires forall k :: 0 <= k < |ws| ==> |ws[k]| > MinTermLength
    ensures LongWords(ws) == ws
    decreases |ws|
  {
    if |ws| > 0 {
      LongWordsKeepsLong(ws[1..]);
    }
  }

  /** Joining lower-case words with spaces gives a lower-case string. */
  lemma {:induction false} JoinLower(ws: seq<string>)
    requires forall k :: 0 <= k < |ws| ==> Lower(ws[k]) == ws[k]
    ensures Lower(Join(ws, " ")) == Join(ws, " ")
    decreases |ws|
  {
    if |ws| > 1 {
      JoinLower(ws[1..]);
      var a, b := ws[0] + " ", Join(ws[1..], " ");
      assert Lower(a + b) == Lower(a) + Lower(b);
      assert Lower(a) == Lower(ws[0]) + Lower(" ");
    }
  }

  // ---------------------------------------------------------------------------
  // Splitting

  /** `term` matches `text` at `q`, ignoring ASCII case. */
  predicate MatchesAt(text: string, term: string, q: nat) {
    OccursAt(Lower(text), term, q)
  }

  /** The alternative the regular expression takes at `q`: the index of the
      first term, in list order, that matches there. */
  function FirstTermAt(text: string, terms: seq<string>, q: nat): Option<nat> {
    if |terms| == 0 then None
    else if MatchesAt(text, terms[0], q) then Some(0)
    else match FirstTermAt(text, terms[1..], q)
      case Some(k) => Some(k + 1)
      case None => None
  }

  /** The alternative chosen matches, and no earlier one does; with none
      chosen, no term matches at all. */
  lemma {:induction false} FirstTermAtSpec(text: string, terms: seq<string>, q: nat)
    ensures var r := FirstTermAt(text, terms, q);
            && (r.Some? ==> r.value < |terms| && MatchesAt(text, terms[r.value], q)
                            && forall j :: 0 <= j < r.value ==> !MatchesAt(text, terms[j], q))
            && (r.None? ==> forall j :: 0 <= j < |terms| ==> !MatchesAt(text, terms[j], q))
    decreases |terms|
  {
    if |terms| > 0 && !MatchesAt(text, terms[0], q) {
      FirstTermAtSpec(text, terms[1..], q);
      assert forall j :: 1 <= j < |terms| ==> terms[j] == terms[1..][j - 1];
    }
  }

  /** No term matches at any position of `[p, q)`. */
  predicate NoMatchBetween(text: string, terms: seq<string>, p: nat, q: nat) {
    forall j :: p <= j < q ==> FirstTermAt(text, terms, j).None?
  }

  /** `piece` is the stretch of `text` at `q`, and no term starts inside it. */
  predicate PlainAt(text: string, terms: seq<string>, q: nat, piece: string) {
    && q + |piece| <= |text|
    && piece == text[q..q + |piece|]
    && NoMatchBetween(text, terms, q, q + |piece|)
  }

  /** `piece` is the text the regular expression matches at `q`: the first
      alternative, in list order, that occurs there. */
  predicate MatchedAt(text: string, terms: seq<string>, q: nat, piece: string) {
    var m := FirstTermAt(text, terms, q);
    && m.Some? && m.value < |terms|
    && q + |terms[m.value]| <= |text|
    && piece == text[q..q + |terms[m.value]|]
  }

  /** `PlainAt` and `MatchedAt` for one text and term list, as values, so
      that the shape of a scan can be reasoned about apart from them. */
  function PlainTest(text: string, terms: seq<string>): (nat, string) -> bool {
    (q: nat, piece: string) => PlainAt(text, terms, q, piece)
  }

  function MatchedTest(text: string, terms: seq<string>): (nat, string) -> bool {
    (q: nat, piece: string) => MatchedAt(text, terms, q, piece)
  }

  /** The pieces `r`, laid end to end from offset `p`, alternate between
      pieces that pass `plain` and pieces that pass `matched`, starting and
      ending with a plain one, and end at `end`. */
  predicate Alternates(r: seq<string>, p: nat, end: nat, plain: (nat, string) -> bool, matched: (nat, string) -> bool)
    decreases |r|
  {
    && |r| % 2 == 1
    && plain(p, r[0])
    && if |r| == 1 then p + |r[0]| == end
       else matched(p + |r[0]|, r[1]) && Alternates(r[2..], p + |r[0]| + |r[1]|, end, plain, matched)
  }

  /** The pieces `r`, laid end to end from offset `p`, are what the scan
      yields: a plain stretch up to the leftmost match, the match, and so on,
      ending with a plain stretch that reaches the end of the text. */
  predicate Scanned(r: seq<string>, text: string, terms: seq<string>, p: nat) {
    Alternates(r, p, |text|, PlainTest(text, terms), MatchedTest(text, terms))
  }

  /** Where the `i`-th piece starts. */
  function Offset(r: seq<string>, i: nat): nat
    requires i <= |r|
  {
    |Concat(r[..i])|
  }

  /** A stretch where no term starts is never itself a term: the term would
      have matched at the stretch's first position. */
  lemma UnmatchedIsNoTerm(text: string, terms: seq<string>, p: nat, q: nat)
    requires p <= q <= |text| && NonEmptyTerms(terms)
    requires NoMatchBetween(text, terms, p, q)
    ensures Lower(text[p..q]) !in terms
  {
    if p < q {
      LowerSlice(text, p, q);
      FirstTermAtSpec(text, terms, p);
      assert FirstTermAt(text, terms, p).None?;
    }
  }

  /** Putting an unmatched part and a matched part in front of a split keeps
      its shape: odd length, terms exactly at the odd positions. */
  lemma PrependPair(a: string, b: string, rest: seq<string>, terms: seq<string>)
    requires Lower(a) !in terms && Lower(b) in terms
    requires |rest| % 2 == 1
    requires forall i :: 0 <= i < |rest| ==> (Lower(rest[i]) in terms <==> i % 2 == 1)
    ensures var r := [a, b] + rest;
            && |r| % 2 == 1
            && forall i :: 0 <= i < |r| ==> (Lower(r[i]) in terms <==> i % 2 == 1)
  {
    var r := [a, b] + rest;
    assert forall i :: 2 <= i < |r| ==> r[i] == rest[i - 2];
  }

  lemma ConcatSingle(s: string)
    ensures Concat([s]) == s
  {
    assert Concat([s]) == s + Concat([]);
  }

  /** Two adjacent slices in front of a split of the rest make a split of the whole. */
  lemma ConcatPieces(text: string, p: nat, q: nat, e: nat, rest: seq<string>)
    requires p <= q <= e <= |text| && Concat(rest) == text[e..]
    ensures Concat([text[p..q], text[q..e]] + rest) == text[p..]
  {
    var r := [text[p..q], text[q..e]] + rest;
    assert r[1..] == [text[q..e]] + rest && r[2..] == rest;
    assert text[p..q] + text[q..e] + text[e..] == text[p..];
  }

  /** The shape every split has: odd length, the parts put together are the
      text, and the terms are exactly the parts at odd positions. */
  predicate SplitOf(r: seq<string>, s: string, terms: seq<string>) {
    && |r| % 2 == 1
    && Concat(r) == s
    && forall i :: 0 <= i < |r| ==> (Lower(r[i]) in terms <==> i % 2 == 1)
  }

  /** The unmatched rest alone is a split. */
  lemma SplitLast(text: string, terms: seq<string>, p: nat)
    requires p <= |text| && NonEmptyTerms(terms)
    requires NoMatchBetween(text, terms, p, |text|)
    ensures SplitOf([text[p..]], text[p..], terms)
  {
    UnmatchedIsNoTerm(text, terms, p, |text|);
    assert text[p..|text|] == text[p..];
    ConcatSingle(text[p..]);
  }

  /** An unmatched piece and the match that ends it, in front of a split of
      what follows the match, make a split. */
  lemma SplitStep(text: string, terms: seq<string>, p: nat, q: nat, k: nat, rest: seq<string>)
    requires p <= q < |text| && NonEmptyTerms(terms)
    requires NoMatchBetween(text, terms, p, q)
    requires FirstTermAt(text, terms, q) == Some(k) && k < |terms| && q + |terms[k]| <= |text|
    requires SplitOf(rest, text[q + |terms[k]|..], terms)
    ensures SplitOf([text[p..q], text[q..q + |terms[k]|]] + rest, text[p..], terms)
  {
    var e := q + |terms[k]|;
    FirstTermAtSpec(text, terms, q);
    UnmatchedIsNoTerm(text, terms, p, q);
    LowerSlice(text, q, e);
    PrependPair(text[p..q], text[q..e], rest, terms);
    ConcatPieces(text, p, q, e, rest);
  }

  /** A match at `q` ends past `q` and within the text. */
  lemma MatchEnd(text: string, terms: seq<string>, q: nat, k: nat)
    requires NonEmptyTerms(terms) && FirstTermAt(text, terms, q) == Some(k)
    ensures k < |terms| && q < q + |terms[k]| <= |text|
  {
    FirstTermAtSpec(text, terms, q);
  }

  /** A position where nothing matches extends an unmatched stretch. */
  lemma NoMatchExtend(text: string, terms: seq<string>, p: nat, q: nat)
    requires NoMatchBetween(text, terms, p, q) && FirstTermAt(text, terms, q).None?
    ensures NoMatchBetween(text, terms, p, q + 1)
  {
  }

  /** `text.split(pattern)` from the piece starting at `p`, the scan having
      reached `q`: the unmatched piece, the matched text (the capture group),
      and so on, ending with the unmatched rest. */
  function SplitFrom(text: string, terms: seq<string>, p: nat, q: nat): seq<string>
    requires p <= q <= |text| && NonEmptyTerms(terms)
    decreases |text| - q
  {
    if q == |text| then [text[p..]]
    else
      FirstTermAtSpec(text, terms, q);
      var m := FirstTermAt(text, terms, q);
      if m.None? then SplitFrom(text, terms, p, q + 1)
      else
        var e := q + |terms[m.value]|;
        [text[p..q], text[q..e]] + SplitFrom(text, terms, e, e)
  }

  /** A match at `q`, in front of a split of what follows it, extends the
      scan from `p` to a split. */
  lemma SplitFromMatch(text: string, terms: seq<string>, p: nat, q: nat, k: nat, e: nat)
    requires p <= q < |text| && NonEmptyTerms(terms)
    requires NoMatchBetween(text, terms, p, q)
    requires FirstTermAt(text, terms, q) == Some(k) && k < |terms| && e == q + |terms[k]| <= |text|
    requires SplitOf(SplitFrom(text, terms, e, e), text[e..], terms)
    ensures SplitOf(SplitFrom(text, terms, p, q), text[p..], terms)
  {
    SplitFromAtMatch(text, terms, p, q, k);
    SplitStep(text, terms, p, q, k, SplitFrom(text, terms, e, e));
  }

  /** The scan at a match: the piece before it, the match, then the scan of
      what follows. */
  lemma SplitFromAtMatch(text: string, terms: seq<string>, p: nat, q: nat, k: nat)
    requires p <= q < |text| && NonEmptyTerms(terms)
    requires FirstTermAt(text, terms, q) == Some(k) && k < |terms| && q + |terms[k]| <= |text|
    ensures SplitFrom(text, terms, p, q)
            == [text[p..q], text[q..q + |terms[k]|]] + SplitFrom(text, terms, q + |terms[k]|, q + |terms[k]|)
  {
  }

  /** The unmatched rest alone is a scan. */
  lemma ScannedLast(text: string, terms: seq<string>, p: nat)
    requires p <= |text| && NoMatchBetween(text, terms, p, |text|)
    ensures Scanned([text[p..]], text, terms, p)
  {
    assert text[p..] == text[p..p + |text[p..]|];
    assert PlainTest(text, terms)(p, text[p..]);
    AlternatesOne(text[p..], p, |text|, PlainTest(text, terms), MatchedTest(text, terms));
  }

  /** An unmatched stretch and the match that ends it, in front of a scan of
      what follows the match, make a scan. */
  lemma ScannedStep(text: string, terms: seq<string>, p: nat, q: nat, k: nat, rest: seq<string>)
    requires p <= q <= |text| && NoMatchBetween(text, terms, p, q)
    requires FirstTermAt(text, terms, q) == Some(k) && k < |terms| && q + |terms[k]| <= |text|
    requires Scanned(rest, text, terms, q + |terms[k]|)
    ensures Scanned([text[p..q], text[q..q + |terms[k]|]] + rest, text, terms, p)
  {
    var e := q + |terms[k]|;
    PlainPiece(text, terms, p, q);
    MatchedPiece(text, terms, q, k);
    AlternatesCons(text[p..q], text[q..e], rest, p, |text|, PlainTest(text, terms), MatchedTest(text, terms));
  }

  lemma PlainPiece(text: string, terms: seq<string>, p: nat, q: nat)
    requires p <= q <= |text| && NoMatchBetween(text, terms, p, q)
    ensures PlainTest(text, terms)(p, text[p..q])
  {
    assert PlainAt(text, terms, p, text[p..q]);
  }

  lemma MatchedPiece(text: string, terms: seq<string>, q: nat, k: nat)
    requires FirstTermAt(text, terms, q) == Some(k) && k < |terms| && q + |terms[k]| <= |text|
    ensures MatchedTest(text, terms)(q, text[q..q + |terms[k]|])
  {
    assert MatchedAt(text, terms, q, text[q..q + |terms[k]|]);
  }

  lemma AlternatesOne(a: string, p: nat, end: nat, plain: (nat, string) -> bool, matched: (nat, string) -> bool)
    requires plain(p, a) && p + |a| == end
    ensures Alternates([a], p, end, plain, matched)
  {
  }

  /** A plain piece and a matched piece in front of alternating pieces that
      start where they end still alternate. */
  lemma AlternatesCons(a: string, b: string, rest: seq<string>, p: nat, end: nat, plain: (nat, string) -> bool, matched: (nat, string) -> bool)
    requires plain(p, a) && matched(p + |a|, b)
    requires Alternates(rest, p + |a| + |b|, end, plain, matched)
    ensures Alternates([a, b] + rest, p, end, plain, matched)
  {
    var r := [a, b] + rest;
    assert r[0] == a && r[1] == b && r[2..] == rest;
  }

  /** Scanning on from an unmatched stretch yields a split of the rest of
      the text. */
  lemma {:induction false} SplitFromIsSplit(text: string, terms: seq<string>, p: nat, q: nat)
    requires p <= q <= |text| && NonEmptyTerms(terms)
    requires NoMatchBetween(text, terms, p, q)
    ensures SplitOf(SplitFrom(text, terms, p, q), text[p..], terms)
    decreases |text| - q
  {
    if q == |text| {
      SplitLast(text, terms, p);
    } else {
      var m := FirstTermAt(text, terms, q);
      if m.Some? {
        MatchEnd(text, terms, q, m.value);
        var e := q + |terms[m.value]|;
        SplitFromIsSplit(text, terms, e, e);
        SplitFromMatch(text, terms, p, q, m.value, e);
        SplitFromAtMatch(text, terms, p, q, m.value);
      } else {
        NoMatchExtend(text, terms, p, q);
        SplitFromIsSplit(text, terms, p, q + 1);
        assert SplitFrom(text, terms, p, q) == SplitFrom(text, terms, p, q + 1);
      }
    }
  }

  /** Scanning on from an unmatched stretch cuts the rest of the text at
      each leftmost match, taking the first alternative that occurs there. */
  lemma {:induction false} SplitFromScanned(text: string, terms: seq<string>, p: nat, q: nat)
    requires p <= q <= |text| && NonEmptyTerms(terms)
    requires NoMatchBetween(text, terms, p, q)
    ensures Scanned(SplitFrom(text, terms, p, q), text, terms, p)
    decreases |text| - q
  {
    var r := SplitFrom(text, terms, p, q);
    if q == |text| {
      ScannedLast(text, terms, p);
      ScannedMoved([text[p..]], r, text, terms, p);
    } else {
      var m := FirstTermAt(text, terms, q);
      if m.Some? {
        MatchEnd(text, terms, q, m.value);
        var e := q + |terms[m.value]|;
        SplitFromScanned(text, terms, e, e);
        SplitFromAtMatch(text, terms, p, q, m.value);
        ScannedStep(text, terms, p, q, m.value, SplitFrom(text, terms, e, e));
        ScannedMoved([text[p..q], text[q..e]] + SplitFrom(text, terms, e, e), r, text, terms, p);
      } else {
        NoMatchExtend(text, terms, p, q);
        SplitFromScanned(text, terms, p, q + 1);
        ScannedMoved(SplitFrom(text, terms, p, q + 1), r, text, terms, p);
      }
    }
  }

  lemma ScannedMoved(r: seq<string>, r': seq<string>, text: string, terms: seq<string>, p: nat)
    requires Scanned(r, text, terms, p) && r == r'
    ensures Scanned(r', text, terms, p)
  {
  }

  /** The scan's pieces, read by position: the plain ones have no match
      inside them, each matched one is the first alternative at its offset. */
  lemma ScannedOffsets(r: seq<string>, text: string, terms: seq<string>, p: nat)
    requires Scanned(r, text, terms, p)
    ensures forall i :: 0 <= i < |r| && i % 2 == 0 ==> PlainAt(text, terms, p + Offset(r, i), r[i])
    ensures forall i :: 0 <= i < |r| && i % 2 == 1 ==> MatchedAt(text, terms, p + Offset(r, i), r[i])
  {
    var plain, matched := PlainTest(text, terms), MatchedTest(text, terms);
    forall i | 0 <= i < |r|
      ensures i % 2 == 0 ==> PlainAt(text, terms, p + Offset(r, i), r[i])
      ensures i % 2 == 1 ==> MatchedAt(text, terms, p + Offset(r, i), r[i])
    {
      if i % 2 == 0 {
        AlternatesPlain(r, p, |text|, plain, matched, i);
      } else {
        AlternatesMatched(r, p, |text|, plain, matched, i);
      }
    }
  }

  /** An even-numbered piece passes `plain`. */
  lemma AlternatesPlain(r: seq<string>, p: nat, end: nat, plain: (nat, string) -> bool, matched: (nat, string) -> bool, i: nat)
    requires Alternates(r, p, end, plain, matched) && i < |r| && i % 2 == 0
    ensures plain(p + Offset(r, i), r[i])
  {
    var k := i / 2;
    Halves(i);
    AlternatesDrop(r, p, end, plain, matched, k);
    var rest := r[2 * k..];
    AlternatesHead(rest, p + Offset(r, 2 * k), end, plain, matched);
    assert rest[0] == r[i];
  }

  /** An odd-numbered piece passes `matched`. */
  lemma AlternatesMatched(r: seq<string>, p: nat, end: nat, plain: (nat, string) -> bool, matched: (nat, string) -> bool, i: nat)
    requires Alternates(r, p, end, plain, matched) && i < |r| && i % 2 == 1
    ensures matched(p + Offset(r, i), r[i])
  {
    var k := i / 2;
    Halves(i);
    AlternatesDrop(r, p, end, plain, matched, k);
    var rest := r[2 * k..];
    AlternatesHead(rest, p + Offset(r, 2 * k), end, plain, matched);
    OffsetStep(r, i - 1);
    assert rest[0] == r[i - 1] && rest[1] == r[i];
  }

  lemma Halves(i: nat)
    ensures i % 2 == 0 ==> 2 * (i / 2) == i
    ensures i % 2 == 1 ==> 2 * (i / 2) == i - 1
  {
  }

  /** Dropping `k` pairs of pieces leaves pieces that alternate the same way
      from where the dropped ones end. */
  lemma {:induction false} AlternatesDrop(r: seq<string>, p: nat, end: nat, plain: (nat, string) -> bool, matched: (nat, string) -> bool, k: nat)
    requires Alternates(r, p, end, plain, matched) && 2 * k < |r|
    ensures Alternates(r[2 * k..], p + Offset(r, 2 * k), end, plain, matched)
    decreases k
  {
    OffsetFront(r);
    if k == 0 {
      AlternatesMoved(r, p, r[2 * k..], p + Offset(r, 2 * k), end, plain, matched);
    } else {
      var i := 2 * k - 2;
      AlternatesDrop(r, p, end, plain, matched, k - 1);
      var rest := r[i..];
      AlternatesMoved(r[2 * (k - 1)..], p + Offset(r, 2 * (k - 1)), rest, p + Offset(r, i), end, plain, matched);
      AlternatesTail(rest, p + Offset(r, i), end, plain, matched);
      OffsetStep(r, i);
      OffsetStep(r, i + 1);
      assert rest[2..] == r[2 * k..] && rest[0] == r[i] && rest[1] == r[i + 1];
      AlternatesMoved(rest[2..], p + Offset(r, i) + |rest[0]| + |rest[1]|, r[2 * k..], p + Offset(r, 2 * k), end, plain, matched);
    }
  }

  lemma AlternatesMoved(r: seq<string>, p: nat, r': seq<string>, p': nat, end: nat, plain: (nat, string) -> bool, matched: (nat, string) -> bool)
    requires Alternates(r, p, end, plain, matched) && r == r' && p == p'
    ensures Alternates(r', p', end, plain, matched)
  {
  }

  /** Each piece moves the next offset on by its own length. */
  lemma OffsetStep(r: seq<string>, i: nat)
    requires i < |r|
    ensures Offset(r, i + 1) == Offset(r, i) + |r[i]|
  {
    assert r[..i + 1] == r[..i] + [r[i]];
    ConcatAppend(r[..i], [r[i]]);
    assert [r[i]][1..] == [];
  }

  /** The first two pieces pass `plain` and `matched`, at their offsets. */
  lemma AlternatesHead(r: seq<string>, p: nat, end: nat, plain: (nat, string) -> bool, matched: (nat, string) -> bool)
    requires Alternates(r, p, end, plain, matched)
    ensures |r| > 0 && plain(p + Offset(r, 0), r[0])
    ensures |r| > 1 ==> matched(p + Offset(r, 1), r[1])
  {
    OffsetFront(r);
  }

  /** What follows the first two pieces alternates the same way. */
  lemma AlternatesTail(r: seq<string>, p: nat, end: nat, plain: (nat, string) -> bool, matched: (nat, string) -> bool)
    requires Alternates(r, p, end, plain, matched) && |r| > 2
    ensures Alternates(r[2..], p + |r[0]| + |r[1]|, end, plain, matched)
  {
  }

  /** The first piece starts at 0, the second right after the first. */
  lemma OffsetFront(r: seq<string>)
    requires |r| > 0
    ensures Offset(r, 0) == 0 && Offset(r, 1) == |r[0]|
  {
    assert r[..0] == [];
    assert r[..1] == [r[0]] && [r[0]][1..] == [];
  }

  /** `text.split(new RegExp('(' + terms.join('|') + ')', 'gi'))`. */
  function Split(text: string, terms: seq<string>): (r: seq<string>)
    requires NonEmptyTerms(terms)
    ensures |r| % 2 == 1
    ensures Concat(r) == text
    ensures forall i :: 0 <= i < |r| ==> (Lower(r[i]) in terms <==> i % 2 == 1)
    // the split is at every leftmost match: no term starts inside a plain piece ...
    ensures forall i :: 0 <= i < |r| && i % 2 == 0 ==> PlainAt(text, terms, Offset(r, i), r[i])
    // ... and each matched piece is the first alternative that occurs at its offset
    ensures forall i :: 0 <= i < |r| && i % 2 == 1 ==> MatchedAt(text, terms, Offset(r, i), r[i])
  {
    SplitFromIsSplit(text, terms, 0, 0);
    SplitFromScanned(text, terms, 0, 0);
    ScannedOffsets(SplitFrom(text, terms, 0, 0), text, terms, 0);
    SplitFrom(text, terms, 0, 0)
  }

  // ---------------------------------------------------------------------------
  // Rendering

  /** One rendered `<span>` of the bio. */
  datatype Segment = Segment(text: string, highlighted: bool)

  function SegmentTexts(segs: seq<Segment>): (r: seq<string>)
    ensures |r| == |segs| && forall i :: 0 <= i < |segs| ==> r[i] == segs[i].text
  {
    seq(|segs|, i requires 0 <= i < |segs| => segs[i].text)
  }

  /** The spans for the parts of a split: a part is highlighted exactly when,
      lower-cased, it is a term. */
  function Spans(parts: seq<string>, terms: seq<string>): (r: seq<Segment>)
    ensures |r| == |parts| && SegmentTexts(r) == parts
    ensures forall i :: 0 <= i < |r| ==> (r[i].highlighted <==> Lower(parts[i]) in terms)
  {
    var r := seq(|parts|, i requires 0 <= i < |parts| => Segment(parts[i], Lower(parts[i]) in terms));
    assert SegmentTexts(r) == parts;
    r
  }

  /** The spans of a bio for the given terms: the bio as one plain span
      when there are none, else the parts of its split. */
  function BioSpans(text: string, terms: seq<string>): (r: seq<Segment>)
    requires NonEmptyTerms(terms)
    ensures Concat(SegmentTexts(r)) == text
    ensures forall i :: 0 <= i < |r| ==> (r[i].highlighted <==> Lower(r[i].text) in terms)
    ensures |r| % 2 == 1 && forall i :: 0 <= i < |r| ==> (r[i].highlighted <==> i % 2 == 1)
    ensures terms == [] ==> r == [Segment(text, false)]
    // a plain span has no match inside it; a highlighted one is the first
    // alternative that occurs where it starts
    ensures forall i :: 0 <= i < |r| && !r[i].highlighted ==> PlainAt(text, terms, Offset(SegmentTexts(r), i), r[i].text)
    ensures forall i :: 0 <= i < |r| && r[i].highlighted ==> MatchedAt(text, terms, Offset(SegmentTexts(r), i), r[i].text)
  {
    if |terms| == 0 then
      assert SegmentTexts([Segment(text, false)]) == [text];
      ConcatSingle(text);
      WholeTextPlain(text, terms);
      [Segment(text, false)]
    else Spans(Split(text, terms), terms)
  }

  /** With no terms, the whole text is one plain stretch. */
  lemma WholeTextPlain(text: string, terms: seq<string>)
    requires terms == []
    ensures PlainAt(text, terms, Offset([text], 0), text)
  {
    OffsetFront([text]);
    assert text == text[0..|text|];
  }

  /** `renderHighlightedBio(text, skills)` with the card's `query`. `None` is
      the nothing rendered for an empty bio. */
  function HighlightedBio(text: string, skills: seq<string>, query: string): (r: Option<seq<Segment>>)
    requires NonEmptyTerms(skills)
    ensures r.None? <==> text == ""
    // the parts put back together are the bio, with its case as written
    ensures r.Some? ==> Concat(SegmentTexts(r.value)) == text
    // a part is highlighted exactly when, lower-cased, it is a term
    ensures r.Some? ==> forall i :: 0 <= i < |r.value| ==>
              (r.value[i].highlighted <==> Lower(r.value[i].text) in HighlightTerms(query, skills))
    // so unmatched and matched parts alternate, the first and the last unmatched
    ensures r.Some? ==> |r.value| % 2 == 1
                        && forall i :: 0 <= i < |r.value| ==> (r.value[i].highlighted <==> i % 2 == 1)
    // with no terms the bio is one plain part
    ensures r.Some? && HighlightTerms(query, skills) == [] ==> r.value == [Segment(text, false)]
    // a plain part has no term inside it; a highlighted one is the first
    // term, in list order, that occurs where it starts
    ensures r.Some? ==> forall i :: 0 <= i < |r.value| && !r.value[i].highlighted ==>
              PlainAt(text, HighlightTerms(query, skills), Offset(SegmentTexts(r.value), i), r.value[i].text)
    ensures r.Some? ==> forall i :: 0 <= i < |r.value| && r.value[i].highlighted ==>
              MatchedAt(text, HighlightTerms(query, skills), Offset(SegmentTexts(r.value), i), r.value[i].text)
  {
    if text == "" then None else Some(BioSpans(text, HighlightTerms(query, skills)))
  }
}

/** The decision logic of the recruiter dashboard
    (src/pages/Recruiter/RecruiterDashboard.tsx): how a search response of
    unknown shape becomes a candidate list and a match count, how the filters
    are derived afterwards, which user actions re-run the search, and how a
    candidate profile is mapped to the fields of its result card. React state
    is modelled as an immutable record; one search is one state transition
    whose input is how the search call settled. */
module RecruiterDashboard {
  import opened Wrappers
  import opened Strings
  import opened Json

  /** The page size the dashboard asks for. */
  const PageSize: int := 15

  // ---------------------------------------------------------------------------
  // Response normalization

  /** The candidate list and the match count extracted from a response. */
  datatype Normalized = Normalized(candidates: seq<Json>, total: Json)

  /** The value of an envelope key as a list: the array itself, or nothing
      when the value is truthy but not an array. */
  function EnvelopeList(v: Json): seq<Json> {
    if v.Arr? then v.items else []
  }

  /** `response.total || response.totalMatches || response.count || candidates.length`:
      the first truthy count field, so a `total` of 0 is passed over; the list
      length when none is truthy. */
  function ResolveTotal(response: Json, candidates: seq<Json>): (t: Json)
    ensures Truthy(Get(response, "total")) ==> t == Get(response, "total")
    ensures !Truthy(Get(response, "total")) && Truthy(Get(response, "totalMatches")) ==>
              t == Get(response, "totalMatches")
    ensures (!Truthy(Get(response, "total")) && !Truthy(Get(response, "totalMatches"))
             && Truthy(Get(response, "count"))) ==> t == Get(response, "count")
    ensures (!Truthy(Get(response, "total")) && !Truthy(Get(response, "totalMatches"))
             && !Truthy(Get(response, "count"))) ==> t == Num(|candidates|)
  {
    Or(Or(Or(Get(response, "total"), Get(response, "totalMatches")), Get(response, "count")), Num(|candidates|))
  }

  /** The position of the first field, in key order, whose value is an array. */
  function FirstArrayIndex(entries: Fields<Json>): (r: Option<nat>)
    ensures r.Some? ==> r.value < |entries| && entries[r.value].1.Arr?
                        && forall j :: 0 <= j < r.value ==> !entries[j].1.Arr?
    ensures r.None? ==> forall j :: 0 <= j < |entries| ==> !entries[j].1.Arr?
  {
    if |entries| == 0 then None
    else if entries[0].1.Arr? then Some(0)
    else match FirstArrayIndex(entries[1..])
      case Some(i) => Some(i + 1)
      case None => None
  }

  /** The last branch of the source as written: `Object.keys(response).find(...)`
      gives the first array-valued key, but it is then tested for truthiness
      (`if (arrayKey)`), so an array under the empty key `""` counts as not
      found. */
  function FallbackAsWritten(response: Json): Normalized {
    var entries := OwnEntries(response);
    match FirstArrayIndex(entries)
    case Some(i) =>
      if entries[i].0 != "" then
        var list := entries[i].1.items;
        Normalized(list, ResolveTotal(response, list))
      else Normalized([], Num(0))
    case None => Normalized([], Num(0))
  }

  /** The last branch as intended: the first array-valued field, whatever its key. */
  function Fallback(response: Json): Normalized {
    var entries := OwnEntries(response);
    match FirstArrayIndex(entries)
    case Some(i) =>
      var list := entries[i].1.items;
      Normalized(list, ResolveTotal(response, list))
    case None => Normalized([], Num(0))
  }

  /** The priority order of the normalizer, given what its last branch yields:
      a bare array; then the first truthy of `candidates`, `users`, `data`;
      then the fallback. Reading a key of `null` or `undefined` throws. */
  function NormalizeWith(response: Json, fallback: Normalized): Option<Normalized> {
    if IsNullish(response) then None
    else if response.Arr? then Some(Normalized(response.items, Num(|response.items|)))
    else if Truthy(Get(response, "candidates")) then
      var list := EnvelopeList(Get(response, "candidates"));
      Some(Normalized(list, ResolveTotal(response, list)))
    else if Truthy(Get(response, "users")) then
      var list := EnvelopeList(Get(response, "users"));
      Some(Normalized(list, ResolveTotal(response, list)))
    else if Truthy(Get(response, "data")) then
      var list := EnvelopeList(Get(response, "data"));
      Some(Normalized(list, ResolveTotal(response, list)))
    else Some(fallback)
  }

  /** The normalizer exactly as the source writes it. */
  function NormalizeAsWritten(response: Json): Option<Normalized> {
    NormalizeWith(response, FallbackAsWritten(response))
  }

  /** A value stored under one of the response's own keys. */
  predicate IsFieldValue(response: Json, v: Json) {
    exists e :: e in OwnEntries(response) && e.1 == v
  }

  /** The normalizer with its last branch corrected: `(candidates, total)`
      from a response of unknown shape. */
  function Normalize(response: Json): (r: Option<Normalized>)
    // reading a property of null or undefined throws
    ensures r.None? <==> IsNullish(response)
    // a bare array is the list unchanged, its length the total
    ensures response.Arr? ==> r == Some(Normalized(response.items, Num(|response.items|)))
    // the first truthy envelope key decides; only its own value is used as the list
    ensures !IsNullish(response) && !response.Arr? && Truthy(Get(response, "candidates")) ==>
              r.value.candidates == EnvelopeList(Get(response, "candidates"))
    ensures !IsNullish(response) && !response.Arr? && !Truthy(Get(response, "candidates"))
            && Truthy(Get(response, "users")) ==>
              r.value.candidates == EnvelopeList(Get(response, "users"))
    ensures !IsNullish(response) && !response.Arr? && !Truthy(Get(response, "candidates"))
            && !Truthy(Get(response, "users")) && Truthy(Get(response, "data")) ==>
              r.value.candidates == EnvelopeList(Get(response, "data"))
    // without a truthy envelope key: the first array-valued field in key order ...
    ensures !IsNullish(response) && !response.Arr? && !Truthy(Get(response, "candidates"))
            && !Truthy(Get(response, "users")) && !Truthy(Get(response, "data"))
            && FirstArrayIndex(OwnEntries(response)).Some? ==>
              Arr(r.value.candidates) == OwnEntries(response)[FirstArrayIndex(OwnEntries(response)).value].1
    // ... or, when there is none, nothing and a zero count
    ensures !IsNullish(response) && !response.Arr? && !Truthy(Get(response, "candidates"))
            && !Truthy(Get(response, "users")) && !Truthy(Get(response, "data"))
            && FirstArrayIndex(OwnEntries(response)).None? ==>
              r == Some(Normalized([], Num(0)))
    // every envelope answer counts with the shared total rule
    ensures !IsNullish(response) && !response.Arr?
            && (|| Truthy(Get(response, "candidates")) || Truthy(Get(response, "users"))
                || Truthy(Get(response, "data")) || FirstArrayIndex(OwnEntries(response)).Some?) ==>
              r.value.total == ResolveTotal(response, r.value.candidates)
    // records are never invented: the list is empty, the response, or a field's value
    ensures r.Some? ==> r.value.candidates == [] || Arr(r.value.candidates) == response
                        || IsFieldValue(response, Arr(r.value.candidates))
  {
    NormalizeKeepsRecords(response);
    NormalizeWith(response, Fallback(response))
  }

  /** The list the normalizer returns is empty, the response itself, or the
      value of one of the response's fields. */
  lemma NormalizeKeepsRecords(response: Json)
    ensures var r := NormalizeWith(response, Fallback(response));
            r.Some? ==> r.value.candidates == [] || Arr(r.value.candidates) == response
                        || IsFieldValue(response, Arr(r.value.candidates))
  {
    if IsNullish(response) || response.Arr? {
    } else if Truthy(Get(response, "candidates")) {
      EnvelopeListIsField(response, "candidates");
    } else if Truthy(Get(response, "users")) {
      EnvelopeListIsField(response, "users");
    } else if Truthy(Get(response, "data")) {
      EnvelopeListIsField(response, "data");
    } else {
      FallbackIsField(response);
    }
  }

  /** An envelope key's list is empty or the key's own value. */
  lemma EnvelopeListIsField(response: Json, key: string)
    ensures EnvelopeList(Get(response, key)) == [] || IsFieldValue(response, Arr(EnvelopeList(Get(response, key))))
  {
    if response.Obj? && Get(response, key).Arr? {
      assert (key, Get(response, key)) in response.fields;
    }
  }

  /** The fallback's list is empty or the value of a field. */
  lemma FallbackIsField(response: Json)
    ensures Fallback(response).candidates == [] || IsFieldValue(response, Arr(Fallback(response).candidates))
  {
    match FirstArrayIndex(OwnEntries(response))
    case Some(i) =>
      assert OwnEntries(response)[i] in OwnEntries(response);
    case None =>
  }

  /** A response whose only array sits under the empty key: the source's
      truthiness test on the key drops it, the intended normalizer keeps it. */
  lemma EmptyKeyArrayDropped()
    ensures var response := Obj([("", Arr([Str("alice")]))]);
            && NormalizeAsWritten(response) == Some(Normalized([], Num(0)))
            && Normalize(response) == Some(Normalized([Str("alice")], Num(1)))
  {
    var response := Obj([("", Arr([Str("alice")]))]);
    assert FirstArrayIndex(response.fields) == Some(0);
  }

  /** Away from that one case the two normalizers agree. */
  lemma AsWrittenAgreesOtherwise(response: Json)
    requires FirstArrayIndex(OwnEntries(response)).Some? ==>
               OwnEntries(response)[FirstArrayIndex(OwnEntries(response)).value].0 != ""
    ensures NormalizeAsWritten(response) == Normalize(response)
  {
  }

  // ---------------------------------------------------------------------------
  // Filters

  const SoftwareEngineer: string := "software engineer"
  const Marketing: string := "marketing"

  /** The filters the dashboard starts with. */
  const InitialFilters: Fields<Json> :=
    [("jobTitle", Str("")), ("location", Str("")), ("experience", Str("")), ("skills", Arr([]))]

  /** Filters taken from a truthy `filters` object in the response: each of
      the four fields, `''` (or `[]` for skills) where it is falsy. */
  function FiltersFromResponse(f: Json): (r: Fields<Json>)
    ensures |r| == 4 && DistinctKeys(r)
    ensures r[0].0 == "jobTitle" && r[1].0 == "location" && r[2].0 == "experience" && r[3].0 == "skills"
    ensures forall i :: 0 <= i < 3 ==>
              (Truthy(Get(f, r[i].0)) && r[i].1 == Get(f, r[i].0)) || (!Truthy(Get(f, r[i].0)) && r[i].1 == Str(""))
    ensures (Truthy(Get(f, "skills")) && r[3].1 == Get(f, "skills")) || (!Truthy(Get(f, "skills")) && r[3].1 == Arr([]))
  {
    [("jobTitle", Or(Get(f, "jobTitle"), Str(""))),
     ("location", Or(Get(f, "location"), Str(""))),
     ("experience", Or(Get(f, "experience"), Str(""))),
     ("skills", Or(Get(f, "skills"), Arr([])))]
  }

  /** `'filters' in response && response.filters`: the response carries its own filters. */
  predicate CarriesFilters(response: Json) {
    response.Obj? && HasKey(response.fields, "filters") && Truthy(Get(response, "filters"))
  }

  /** The four filter names are different keys. */
  lemma FilterKeysDiffer()
    ensures "jobTitle" != "location" && "jobTitle" != "experience" && "jobTitle" != "skills"
    ensures "location" != "experience" && "location" != "skills" && "experience" != "skills"
  {
    assert "jobTitle"[0] == 'j' && "location"[0] == 'l' && "experience"[0] == 'e' && "skills"[0] == 's';
  }

  /** A "software engineer" query sets the title and the skills and keeps
      every other filter. */
  function EngineerFilters(prev: Fields<Json>): (r: Fields<Json>)
    requires DistinctKeys(prev)
    ensures DistinctKeys(r)
    ensures Lookup(r, "jobTitle") == Some(Str("Software Engineer"))
    ensures Lookup(r, "skills") == Some(Arr([Str("Python"), Str("Node.js")]))
    ensures forall k :: k != "jobTitle" && k != "skills" ==> Lookup(r, k) == Lookup(prev, k)
    ensures Lookup(r, "location") == Lookup(prev, "location") && Lookup(r, "experience") == Lookup(prev, "experience")
  {
    FilterKeysDiffer();
    var x, y := Str("Software Engineer"), Arr([Str("Python"), Str("Node.js")]);
    SpreadPair(prev, "jobTitle", x, "skills", y);
    AssignPairLookup(prev, "jobTitle", x, "skills", y, "jobTitle");
    AssignPairLookup(prev, "jobTitle", x, "skills", y, "skills");
    AssignPairLookup(prev, "jobTitle", x, "skills", y, "location");
    AssignPairLookup(prev, "jobTitle", x, "skills", y, "experience");
    AssignPairKeeps(prev, "jobTitle", x, "skills", y);
    var update := [("jobTitle", x), ("skills", y)];
    Spread(prev, update)
  }

  /** A "marketing" query sets the title and the location and keeps every
      other filter. */
  function MarketingFilters(prev: Fields<Json>): (r: Fields<Json>)
    requires DistinctKeys(prev)
    ensures DistinctKeys(r)
    ensures Lookup(r, "jobTitle") == Some(Str("Marketing Manager"))
    ensures Lookup(r, "location") == Some(Str("Europe"))
    ensures forall k :: k != "jobTitle" && k != "location" ==> Lookup(r, k) == Lookup(prev, k)
    ensures Lookup(r, "skills") == Lookup(prev, "skills") && Lookup(r, "experience") == Lookup(prev, "experience")
  {
    FilterKeysDiffer();
    var x, y := Str("Marketing Manager"), Str("Europe");
    SpreadPair(prev, "jobTitle", x, "location", y);
    AssignPairLookup(prev, "jobTitle", x, "location", y, "jobTitle");
    AssignPairLookup(prev, "jobTitle", x, "location", y, "location");
    AssignPairLookup(prev, "jobTitle", x, "location", y, "skills");
    AssignPairLookup(prev, "jobTitle", x, "location", y, "experience");
    AssignPairKeeps(prev, "jobTitle", x, "location", y);
    var update := [("jobTitle", x), ("location", y)];
    Spread(prev, update)
  }

  /** The filters after a response: taken from the response when it carries
      truthy `filters`, otherwise guessed from the query. `None` when the
      `'filters' in response` test throws, as it does for a primitive. */
  function DeriveFilters(response: Json, query: string, prev: Fields<Json>): (r: Option<Fields<Json>>)
    requires DistinctKeys(prev)
    ensures r.None? <==> !(response.Obj? || response.Arr?)
    ensures r.Some? ==> DistinctKeys(r.value)
    ensures CarriesFilters(response) ==> r == Some(FiltersFromResponse(Get(response, "filters")))
    // "software engineer" sets the title and skills and keeps location and experience
    ensures r.Some? && !CarriesFilters(response) && Contains(Lower(query), SoftwareEngineer) ==>
              && Lookup(r.value, "jobTitle") == Some(Str("Software Engineer"))
              && Lookup(r.value, "skills") == Some(Arr([Str("Python"), Str("Node.js")]))
              && Lookup(r.value, "location") == Lookup(prev, "location")
              && Lookup(r.value, "experience") == Lookup(prev, "experience")
    // "marketing" is only looked at when the first test failed
    ensures r.Some? && !CarriesFilters(response)
            && !Contains(Lower(query), SoftwareEngineer) && Contains(Lower(query), Marketing) ==>
              && Lookup(r.value, "jobTitle") == Some(Str("Marketing Manager"))
              && Lookup(r.value, "location") == Some(Str("Europe"))
              && Lookup(r.value, "skills") == Lookup(prev, "skills")
              && Lookup(r.value, "experience") == Lookup(prev, "experience")
    ensures r.Some? && !CarriesFilters(response)
            && !Contains(Lower(query), SoftwareEngineer) && !Contains(Lower(query), Marketing) ==>
              r.value == prev
  {
    if !(response.Obj? || response.Arr?) then None
    else if CarriesFilters(response) then Some(FiltersFromResponse(Get(response, "filters")))
    else if Contains(Lower(query), SoftwareEngineer) then Some(EngineerFilters(prev))
    else if Contains(Lower(query), Marketing) then Some(MarketingFilters(prev))
    else Some(prev)
  }

  // ---------------------------------------------------------------------------
  // Dashboard state and actions

  /** The search part of the dashboard's state once no search is in flight. */
  datatype Dashboard = Dashboard(
    hasSearched: bool,
    searchQuery: string,
    currentPage: int,
    searchResults: seq<Json>,
    matchCount: Json,
    filters: Fields<Json>)

  /** The state before any search. */
  const Initial: Dashboard := Dashboard(false, "", 1, [], Num(0), InitialFilters)

  /** A call of `handleSearch(query, page)` an action asks for. */
  datatype SearchCall = SearchCall(query: string, page: int)

  /** `handleSearch(query, page)` once the search call has settled to
      `outcome` (the value returned, or the message thrown). */
  function HandleSearch(d: Dashboard, query: string, page: int, outcome: Result<Json, string>): (d': Dashboard)
    requires DistinctKeys(d.filters)
    ensures d'.hasSearched && d'.searchQuery == query && d'.currentPage == page
    ensures DistinctKeys(d'.filters)
    // any failure leaves no results, a zero count, and the filters as they were
    ensures outcome.Failure? ==>
              d'.searchResults == [] && d'.matchCount == Num(0) && d'.filters == d.filters
    // so does a response that is null, undefined or another primitive, which throws part-way
    ensures outcome.Success? && !(outcome.value.Obj? || outcome.value.Arr?) ==>
              d'.searchResults == [] && d'.matchCount == Num(0) && d'.filters == d.filters
    // otherwise the normalized list and count, and the derived filters
    ensures outcome.Success? && (outcome.value.Obj? || outcome.value.Arr?) ==>
              && d'.searchResults == Normalize(outcome.value).value.candidates
              && d'.matchCount == Normalize(outcome.value).value.total
              && Some(d'.filters) == DeriveFilters(outcome.value, query, d.filters)
  {
    var started := d.(searchQuery := query, hasSearched := true, currentPage := page);
    var failed := started.(searchResults := [], matchCount := Num(0));
    match outcome
    case Failure(_) => failed
    case Success(response) =>
      match Normalize(response)
      case None => failed
      case Some(n) =>
        match DeriveFilters(response, query, d.filters)
        case None => failed
        case Some(f) => started.(searchResults := n.candidates, matchCount := n.total, filters := f)
  }

  /** `{...prev, ...newFilters}`: the new filters override, every other
      filter is kept, and the filters already present keep their order. */
  function MergeFilters(prev: Fields<Json>, newFilters: Json): (r: Fields<Json>)
    ensures newFilters.Obj? && DistinctKeys(newFilters.fields) ==>
              forall k :: Lookup(r, k) ==
                if HasKey(newFilters.fields, k) then Lookup(newFilters.fields, k) else Lookup(prev, k)
    ensures |r| >= |prev| && forall i :: 0 <= i < |prev| ==> r[i].0 == prev[i].0
  {
    if newFilters.Obj? && DistinctKeys(newFilters.fields) then
      SpreadReadsLaterFirst(prev, newFilters.fields);
      Spread(prev, newFilters.fields)
    else Spread(prev, OwnEntries(newFilters))
  }

  /** `handleUpdateFilters(newFilters)`: the new filters are merged into the
      old ones, and the last query is searched again (from page 1) only after
      a search and with a non-empty query. */
  function UpdateFilters(d: Dashboard, newFilters: Json): (r: (Dashboard, Option<SearchCall>))
    ensures r.0 == d.(filters := MergeFilters(d.filters, newFilters))
    ensures r.1.Some? <==> d.hasSearched && d.searchQuery != ""
    ensures r.1.Some? ==> r.1.value == SearchCall(d.searchQuery, 1)
  {
    (d.(filters := MergeFilters(d.filters, newFilters)),
     if d.hasSearched && d.searchQuery != "" then Some(SearchCall(d.searchQuery, 1)) else None)
  }

  /** Every key of a spread reads the later object's value when it has one. */
  lemma SpreadReadsLaterFirst(a: Fields<Json>, b: Fields<Json>)
    requires DistinctKeys(b)
    ensures forall k :: Lookup(Spread(a, b), k) == if HasKey(b, k) then Lookup(b, k) else Lookup(a, k)
  {
    forall k ensures Lookup(Spread(a, b), k) == if HasKey(b, k) then Lookup(b, k) else Lookup(a, k) {
      SpreadLookup(a, b, k);
    }
  }

  /** `handleRunSearch`: re-run the query on the current page, if there is a query. */
  function RunSearch(d: Dashboard): (r: Option<SearchCall>)
    ensures r.Some? <==> d.searchQuery != ""
    ensures r.Some? ==> r.value.query == d.searchQuery && r.value.page == d.currentPage
  {
    if d.searchQuery != "" then Some(SearchCall(d.searchQuery, d.currentPage)) else None
  }

  /** `handlePageChange(page)`: search the query on the new page, if there is a query. */
  function ChangePage(d: Dashboard, page: int): (r: Option<SearchCall>)
    ensures r.Some? <==> d.searchQuery != ""
    ensures r.Some? ==> r.value.query == d.searchQuery && r.value.page == page
  {
    if d.searchQuery != "" then Some(SearchCall(d.searchQuery, page)) else None
  }

  // ---------------------------------------------------------------------------
  // Result cards

  datatype CardLinks = CardLinks(linkedin: Json, github: Json, portfolio: Json)

  /** The props a search result passes to its card. */
  datatype CardData = CardData(
    id: Json, name: Json, email: Json, phone: Json,
    role: Json, company: Json, location: Json, education: Json,
    bio: Json, skills: Json, matchScore: Json, links: CardLinks)

  /** The education line: from the parsed résumé's first entry when there is
      one, else from the profile's own education record, else none. */
  function EducationLine(edu: Json, own: Json): (r: Json)
    ensures r.Undefined? <==> !Truthy(edu) && !Truthy(own)
    ensures Truthy(edu) && Get(edu, "institution").Str? ==>
              r.Str? && |r.s| >= 4 + |Get(edu, "institution").s|
              && r.s[|r.s| - |Get(edu, "institution").s| - 4..] == " at " + Get(edu, "institution").s
    ensures !Truthy(edu) && Truthy(own) && Get(own, "university").Str? ==>
              r.Str? && |r.s| >= 4 + |Get(own, "university").s|
              && r.s[|r.s| - |Get(own, "university").s| - 4..] == " at " + Get(own, "university").s
    // from the résumé: the degree and a space, then ", " and the field when
    // the field is truthy, then " at ", then the institution, all as `String(...)`
    ensures Truthy(edu) ==>
              r.Str? && ToJsString(Get(edu, "degree")) + " " <= r.s
    ensures Truthy(edu) && Truthy(Get(edu, "field")) ==>
              r.Str? && ToJsString(Get(edu, "degree")) + " , " + ToJsString(Get(edu, "field")) + " at " <= r.s
              && r.s[|ToJsString(Get(edu, "degree")) + " , " + ToJsString(Get(edu, "field")) + " at "|..]
                 == ToJsString(Get(edu, "institution"))
    ensures Truthy(edu) && !Truthy(Get(edu, "field")) ==>
              r.Str? && ToJsString(Get(edu, "degree")) + "  at " <= r.s
              && r.s[|ToJsString(Get(edu, "degree")) + "  at "|..] == ToJsString(Get(edu, "institution"))
    // from the profile: degree, field and university, each '' when falsy
    ensures !Truthy(edu) && Truthy(own) ==>
              r.Str? && ToJsString(Or(Get(own, "degree"), Str(""))) + " " + ToJsString(Or(Get(own, "field"), Str(""))) + " at " <= r.s
              && r.s[|ToJsString(Or(Get(own, "degree"), Str(""))) + " " + ToJsString(Or(Get(own, "field"), Str(""))) + " at "|..]
                 == ToJsString(Or(Get(own, "university"), Str("")))
  {
    if Truthy(edu) then
      var field := Get(edu, "field");
      var degree := ToJsString(Get(edu, "degree"));
      var head := degree + " " + (if Truthy(field) then ", " + ToJsString(field) else "");
      assert Truthy(field) ==> head == degree + " , " + ToJsString(field);
      assert !Truthy(field) ==> head + " at " == degree + "  at ";
      assert degree + " " <= head;
      AtSuffix(head, ToJsString(Get(edu, "institution")));
      Str(head + " at " + ToJsString(Get(edu, "institution")))
    else if Truthy(own) then
      var head := ToJsString(Or(Get(own, "degree"), Str(""))) + " " + ToJsString(Or(Get(own, "field"), Str("")));
      AtSuffix(head, ToJsString(Or(Get(own, "university"), Str(""))));
      Str(head + " at " + ToJsString(Or(Get(own, "university"), Str(""))))
    else Undefined
  }

  /** A line made of a head, " at " and a name starts with the head and
      " at ", is followed by exactly the name, and ends with " at " and it. */
  lemma AtSuffix(head: string, name: string)
    ensures var line := head + " at " + name;
            |line| >= 4 + |name| && line[|line| - |name| - 4..] == " at " + name
            && head + " at " <= line && line[|head + " at "|..] == name
  {
    var line := head + " at " + name;
    assert line == head + (" at " + name);
    assert line == (head + " at ") + name;
  }

  /** The card of one search result. The profile is read without `?.`, so it
      must not be `null` or `undefined`. */
  function CardFor(c: Json): (r: CardData)
    requires !IsNullish(c)
    // id: `id || _id || ''`
    ensures r.id == FirstTruthy([Get(c, "id"), Get(c, "_id"), Str("")])
    // name: `name || fullName || 'Unknown'`, so a card always shows a name
    ensures r.name == FirstTruthy([Get(c, "name"), Get(c, "fullName"), Str("Unknown")]) && Truthy(r.name)
    ensures r.email == Get(c, "email") && r.phone == Get(c, "phone")
    // role, company and location prefer the parsed résumé's first
    // experience, then the profile's current role
    ensures var exp := OptIndex0(OptGet(Get(c, "parsedResume"), "experience"));
            var current := Get(c, "currentRole");
            && r.role == FirstTruthy([OptGet(exp, "title"), OptGet(current, "title"), OptGet(current, "position")])
            && r.company == FirstTruthy([OptGet(exp, "company"), OptGet(current, "company"), OptGet(current, "companyName")])
            && r.location == FirstTruthy([OptGet(exp, "location"), OptGet(current, "location"), OptGet(current, "city")])
    ensures r.education == EducationLine(OptIndex0(OptGet(Get(c, "parsedResume"), "education")), Get(c, "education"))
    // the bio prefers the résumé summary
    ensures r.bio == FirstTruthy([Get(c, "resumeSummary"), Get(c, "bio"), Get(c, "summary"), Get(c, "description")])
    // skills: `tags || skills || []`, never falsy
    ensures r.skills == FirstTruthy([Get(c, "tags"), Get(c, "skills"), Arr([])]) && Truthy(r.skills)
    // search results carry no match score
    ensures r.matchScore == Undefined
    // links prefer the parsed résumé's contact block
    ensures var contact := OptGet(Get(c, "parsedResume"), "contact");
            && r.links.linkedin == FirstTruthy([OptGet(contact, "linkedin"), Get(c, "linkedin")])
            && r.links.github == FirstTruthy([OptGet(contact, "github"), Get(c, "github")])
            && r.links.portfolio == FirstTruthy([OptGet(contact, "portfolio"), Get(c, "portfolio"), Get(c, "website")])
  {
    var resume := Get(c, "parsedResume");
    var experience := OptIndex0(OptGet(resume, "experience"));
    var education := OptIndex0(OptGet(resume, "education"));
    var contact := OptGet(resume, "contact");
    var currentRole := Get(c, "currentRole");
    OrTripleIsFirstTruthy(Get(c, "id"), Get(c, "_id"), Str(""));
    OrTripleIsFirstTruthy(Get(c, "name"), Get(c, "fullName"), Str("Unknown"));
    OrTripleIsFirstTruthy(OptGet(experience, "title"), OptGet(currentRole, "title"), OptGet(currentRole, "position"));
    OrTripleIsFirstTruthy(OptGet(experience, "company"), OptGet(currentRole, "company"), OptGet(currentRole, "companyName"));
    OrTripleIsFirstTruthy(OptGet(experience, "location"), OptGet(currentRole, "location"), OptGet(currentRole, "city"));
    OrQuadIsFirstTruthy(Get(c, "resumeSummary"), Get(c, "bio"), Get(c, "summary"), Get(c, "description"));
    OrTripleIsFirstTruthy(Get(c, "tags"), Get(c, "skills"), Arr([]));
    OrPairIsFirstTruthy(OptGet(contact, "linkedin"), Get(c, "linkedin"));
    OrPairIsFirstTruthy(OptGet(contact, "github"), Get(c, "github"));
    OrTripleIsFirstTruthy(OptGet(contact, "portfolio"), Get(c, "portfolio"), Get(c, "website"));
    CardData(
      id := Or(Or(Get(c, "id"), Get(c, "_id")), Str("")),
      name := Or(Or(Get(c, "name"), Get(c, "fullName")), Str("Unknown")),
      email := Get(c, "email"),
      phone := Get(c, "phone"),
      role := Or(Or(OptGet(experience, "title"), OptGet(currentRole, "title")), OptGet(currentRole, "position")),
      company := Or(Or(OptGet(experience, "company"), OptGet(currentRole, "company")), OptGet(currentRole, "companyName")),
      location := Or(Or(OptGet(experience, "location"), OptGet(currentRole, "location")), OptGet(currentRole, "city")),
      education := EducationLine(education, Get(c, "education")),
      bio := Or(Or(Or(Get(c, "resumeSummary"), Get(c, "bio")), Get(c, "summary")), Get(c, "description")),
      skills := Or(Or(Get(c, "tags"), Get(c, "skills")), Arr([])),
      matchScore := Undefined,
      links := CardLinks(
        linkedin := Or(OptGet(contact, "linkedin"), Get(c, "linkedin")),
        github := Or(OptGet(contact, "github"), Get(c, "github")),
        portfolio := Or(Or(OptGet(contact, "portfolio"), Get(c, "portfolio")), Get(c, "website"))))
  }

  /** The result list: one card per search result, in order. A `null` or
      `undefined` entry makes the rendering throw, shown as `None`. */
  function Cards(results: seq<Json>): (r: Option<seq<CardData>>)
    ensures r.None? <==> exists i :: 0 <= i < |results| && IsNullish(results[i])
    ensures r.Some? ==> |r.value| == |results|
                        && forall i :: 0 <= i < |results| ==> r.value[i] == CardFor(results[i])
  {
    if exists i :: 0 <= i < |results| && IsNullish(results[i]) then None
    else Some(seq(|results|, i requires 0 <= i < |results| && !IsNullish(results[i]) => CardFor(results[i])))
  }
}

// The mentor search endpoint: the student profile built from the chat's search criteria, the mentor
// profile built from a user row, the instrument pre-filter with its alias groups, and the ranking,
// threshold and top-N selection of the scored mentors.

module MentorSearch {
  import opened Common
  import opened Text
  import Sorting

  // ----- request -----

  datatype PriceRange = PriceRange(min: real, max: real)

  datatype Criteria = Criteria(
    instrument: Option<string>,
    skillLevel: Option<string>,
    learningGoals: Option<seq<string>>,
    genres: Option<seq<string>>,
    priceRange: Option<PriceRange>,
    availability: Option<seq<string>>)

  datatype SearchRequest = SearchRequest(sessionId: string, criteria: Criteria, limit: Option<real>)

  const DEFAULT_LIMIT: real := 5.0
  const MENTOR_POOL: nat := 50
  const INVALID_REQUEST: string := "Invalid request format"

  /** `mentorSearchRequestSchema`: a UUID session and, when given, a limit between 1 and 10 (not necessarily whole). */
  predicate ValidRequest(request: SearchRequest)
  {
    IsUuid(request.sessionId) && (request.limit.None? || 1.0 <= request.limit.value <= 10.0)
  }

  /** The limit in effect, defaulting to 5. */
  function Limit(request: SearchRequest): (l: real)
    requires ValidRequest(request)
    ensures 1.0 <= l <= 10.0
    ensures request.limit.None? ==> l == DEFAULT_LIMIT
  {
    if request.limit.Some? then request.limit.value else DEFAULT_LIMIT
  }

  /** How many entries `slice(0, limit)` keeps: a fractional limit is truncated. */
  function TakeCount(limit: real): (n: nat)
    requires 1.0 <= limit <= 10.0
    ensures 1 <= n <= 10 && n as real <= limit < n as real + 1.0
  {
    limit.Floor
  }

  // ----- criteriaToStudentProfile -----

  const LEARNING_GOALS: seq<string> := ["technique_improvement", "repertoire_expansion", "music_theory",
    "performance_preparation", "composition", "improvisation", "exam_preparation"]

  const GENRES: seq<string> := ["classical", "jazz", "pop", "rock", "folk", "contemporary", "world_music"]

  /** Keys every object literal answers through `Object.prototype`. */
  const PROTOTYPE_KEYS: seq<string> := ["constructor", "hasOwnProperty", "isPrototypeOf", "propertyIsEnumerable",
    "toLocaleString", "toString", "valueOf", "__proto__", "__defineGetter__", "__defineSetter__",
    "__lookupGetter__", "__lookupSetter__"]

  /** What `map[key]` answers when it is not `undefined`: a listed value, or a member inherited from `Object.prototype`. */
  datatype Looked = Listed(value: string) | Inherited(key: string)

  /**
   * The goal and genre lookups as written: `map[key]` on an object literal, then dropping
   * `undefined`. A key of the prototype is answered too, with the prototype's member (a function,
   * or the prototype itself for `__proto__`), so that member survives in place of a value.
   */
  function MapKnownAsWritten(values: seq<string>, known: seq<string>): (r: seq<Looked>)
  {
    var kept := Filter(values, (v: string) => v in known || v in PROTOTYPE_KEYS);
    seq(|kept|, i requires 0 <= i < |kept| => if kept[i] in known then Listed(kept[i]) else Inherited(kept[i]))
  }

  /** The lookups as intended: the values of the fixed table, in the order given. */
  function MapKnown(values: seq<string>, known: seq<string>): (r: seq<string>)
    ensures forall v :: v in r <==> v in values && v in known
  {
    Filter(values, (v: string) => v in known)
  }

  /** A prototype key passes the lookup as written but is no learning goal. */
  lemma PrototypeKeyPassesGoalLookup()
    ensures MapKnownAsWritten(["toString"], LEARNING_GOALS) == [Inherited("toString")]
    ensures "toString" !in LEARNING_GOALS
    ensures MapKnown(["toString"], LEARNING_GOALS) == []
  {
    ToStringIsNoGoal();
    ToStringIsPrototypeKey();
    FilterSingle("toString", (v: string) => v in LEARNING_GOALS || v in PROTOTYPE_KEYS);
    FilterSingle("toString", (v: string) => v in LEARNING_GOALS);
  }

  lemma ToStringIsPrototypeKey()
    ensures "toString" in PROTOTYPE_KEYS
  {
    assert PROTOTYPE_KEYS[5] == "toString";
  }

  lemma ToStringIsNoGoal()
    ensures "toString" !in LEARNING_GOALS
  {
  }

  /** Values that are all in the table come through unchanged, in their order. */
  lemma {:induction false} MapKnownKeepsKnown(values: seq<string>, known: seq<string>)
    requires forall i :: 0 <= i < |values| ==> values[i] in known
    ensures MapKnown(values, known) == values
  {
    if values != [] {
      MapKnownKeepsKnown(values[..|values| - 1], known);
      assert values[..|values| - 1] + [values[|values| - 1]] == values;
    }
  }

  datatype StudentProfile = StudentProfile(
    id: string,
    skillLevel: string,
    learningGoals: seq<string>,
    learningStyle: seq<string>,
    preferredGenres: seq<string>,
    availableTimeSlots: seq<string>,
    priceRange: PriceRange)

  const DEFAULT_SKILL_LEVEL: string := "beginner"
  const DEFAULT_PRICE_RANGE: PriceRange := PriceRange(0.0, 10000.0)

  function Values(s: Option<seq<string>>): seq<string>
  {
    if s.Some? then s.value else []
  }

  /** `criteriaToStudentProfile`. */
  function CriteriaToStudentProfile(userId: string, criteria: Criteria): (p: StudentProfile)
    ensures p.id == userId
    ensures forall g :: g in p.learningGoals <==> g in Values(criteria.learningGoals) && g in LEARNING_GOALS
    ensures forall g :: g in p.preferredGenres <==> g in Values(criteria.genres) && g in GENRES
    ensures p.skillLevel == DEFAULT_SKILL_LEVEL <==> (criteria.skillLevel.None? || criteria.skillLevel.value in {"", DEFAULT_SKILL_LEVEL})
    ensures criteria.skillLevel.Some? && criteria.skillLevel.value != "" ==> p.skillLevel == criteria.skillLevel.value
    ensures p.learningStyle == [] && p.availableTimeSlots == []
    ensures criteria.priceRange.None? ==> p.priceRange == DEFAULT_PRICE_RANGE
    ensures criteria.priceRange.Some? ==> p.priceRange == criteria.priceRange.value
  {
    StudentProfile(
      userId,
      if criteria.skillLevel.Some? && criteria.skillLevel.value != "" then criteria.skillLevel.value else DEFAULT_SKILL_LEVEL,
      MapKnown(Values(criteria.learningGoals), LEARNING_GOALS),
      [],
      MapKnown(Values(criteria.genres), GENRES),
      [],
      if criteria.priceRange.Some? then criteria.priceRange.value else DEFAULT_PRICE_RANGE)
  }

  // ----- userToMentorProfile -----

  datatype MentorUser = MentorUser(
    id: string, name: Option<string>, profileImageUrl: Option<string>, bio: Option<string>, skills: Option<seq<string>>)

  datatype MentorProfile = MentorProfile(
    id: string,
    name: string,
    imageUrl: Option<string>,
    bio: Option<string>,
    skillLevel: string,
    specializations: seq<string>,
    teachingStyles: seq<string>,
    genres: seq<string>,
    availableTimeSlots: seq<string>,
    pricePerHour: int,
    rating: real,
    totalReviews: nat,
    responseRate: real,
    successfulMatches: nat)

  const UNKNOWN_MENTOR: string := "Unknown Mentor"
  const GENERAL: string := "general"

  /** `userToMentorProfile`: the skills stand in for the genres; the remaining fields are fixed. */
  function UserToMentorProfile(user: MentorUser): (m: MentorProfile)
    ensures m.id == user.id
    ensures m.name == (if user.name.Some? && user.name.value != "" then user.name.value else UNKNOWN_MENTOR)
    ensures m.imageUrl == user.profileImageUrl && m.bio == user.bio
    ensures Values(user.skills) != [] ==> m.genres == Values(user.skills)
    ensures Values(user.skills) == [] ==> m.genres == [GENERAL]
    ensures "repertoire_expansion" in m.specializations <==> ("guitar" in Values(user.skills) || "ギター" in Values(user.skills))
    ensures "technique_improvement" in m.specializations
    ensures m.skillLevel == "advanced" && m.pricePerHour == 5000 && m.rating == 4.5
  {
    var skills := Values(user.skills);
    MentorProfile(
      user.id,
      if user.name.Some? && user.name.value != "" then user.name.value else UNKNOWN_MENTOR,
      user.profileImageUrl,
      user.bio,
      "advanced",
      if "guitar" in skills || "ギター" in skills then ["technique_improvement", "repertoire_expansion"]
      else ["technique_improvement"],
      ["visual", "auditory"],
      if |skills| > 0 then skills else [GENERAL],
      [],
      5000,
      4.5,
      10,
      0.95,
      20)
  }

  // ----- the instrument pre-filter -----

  /** The alias groups, in the order `Object.values` visits them. */
  const ALIAS_GROUPS: seq<seq<string>> := [
    ["ギター", "guitar", "エレキギター", "アコースティックギター"],
    ["ピアノ", "piano", "キーボード"],
    ["ベース", "bass"],
    ["pro tools", "protools", "dtm", "daw", "ミックス", "マスタリング"]]

  /** The lower-cased instrument mentions one of the group's aliases. */
  predicate GroupHits(group: seq<string>, instrumentLower: string)
  {
    exists i :: 0 <= i < |group| && Contains(instrumentLower, ToLowerAscii(group[i]))
  }

  /** The first group from `from` on that the instrument hits. */
  function FirstHit(groups: seq<seq<string>>, instrumentLower: string, from: nat): (r: Option<nat>)
    ensures r.Some? ==> from <= r.value < |groups| && GroupHits(groups[r.value], instrumentLower)
    ensures r.Some? ==> forall j :: from <= j < r.value ==> !GroupHits(groups[j], instrumentLower)
    ensures r.None? ==> forall j :: from <= j < |groups| ==> !GroupHits(groups[j], instrumentLower)
    decreases |groups| - from
  {
    if from >= |groups| then None
    else if GroupHits(groups[from], instrumentLower) then Some(from)
    else FirstHit(groups, instrumentLower, from + 1)
  }

  function LowerAll(words: seq<string>): (r: seq<string>)
    ensures |r| == |words| && forall i :: 0 <= i < |words| ==> r[i] == ToLowerAscii(words[i])
  {
    seq(|words|, i requires 0 <= i < |words| => ToLowerAscii(words[i]))
  }

  /** The terms a mentor's skills are matched against: the first group hit, else the instrument alone. */
  function MatchTerms(instrumentLower: string): (terms: seq<string>)
  {
    match FirstHit(ALIAS_GROUPS, instrumentLower, 0)
    case Some(i) => LowerAll(ALIAS_GROUPS[i])
    case None => [instrumentLower]
  }

  /** The loop over the alias groups that stops at the first hit. */
  method FindMatchTerms(instrumentLower: string) returns (terms: seq<string>)
    ensures terms == MatchTerms(instrumentLower)
    ensures terms != []
  {
    terms := [instrumentLower];
    var i := 0;
    while i < |ALIAS_GROUPS|
      invariant 0 <= i <= |ALIAS_GROUPS|
      invariant forall j :: 0 <= j < i ==> !GroupHits(ALIAS_GROUPS[j], instrumentLower)
    {
      if GroupHits(ALIAS_GROUPS[i], instrumentLower) {
        terms := LowerAll(ALIAS_GROUPS[i]);
        return;
      }
      i := i + 1;
    }
  }

  /** A mentor is kept when one of its lower-cased skills contains a term or lies within one. */
  predicate MentorMatches(mentor: MentorProfile, terms: seq<string>)
  {
    exists t, k :: t in terms && 0 <= k < |mentor.genres|
      && (Contains(ToLowerAscii(mentor.genres[k]), t) || Contains(t, ToLowerAscii(mentor.genres[k])))
  }

  /** An instrument that is a guitar alias brings in the whole guitar group. */
  lemma ElectricGuitarUsesGuitarGroup()
    ensures MatchTerms("エレキギター") == ALIAS_GROUPS[0]
  {
    ElectricGuitarHitsGuitarGroup();
    GuitarGroupIsLower();
  }

  lemma ElectricGuitarHitsGuitarGroup()
    ensures GroupHits(ALIAS_GROUPS[0], "エレキギター")
  {
    var s, alias := "エレキギター", "ギター";
    assert alias == ALIAS_GROUPS[0][0];
    ToLowerAsciiKeepsLower(alias);
    assert s[3..6] == alias;
    assert OccursAt(s, alias, 3);
  }

  lemma GuitarGroupIsLower()
    ensures LowerAll(ALIAS_GROUPS[0]) == ALIAS_GROUPS[0]
  {
    var group := ALIAS_GROUPS[0];
    forall i | 0 <= i < |group|
      ensures ToLowerAscii(group[i]) == group[i]
    {
      ToLowerAsciiKeepsLower(group[i]);
    }
  }

  /** A mentor with an empty skill passes every instrument filter: the empty string lies within any term. */
  lemma EmptySkillMatchesEveryInstrument(mentor: MentorProfile, instrumentLower: string)
    requires "" in mentor.genres
    ensures MentorMatches(mentor, MatchTerms(instrumentLower))
  {
    var terms := MatchTerms(instrumentLower);
    var k :| 0 <= k < |mentor.genres| && mentor.genres[k] == "";
    assert terms != [] by {
      if FirstHit(ALIAS_GROUPS, instrumentLower, 0).Some? {
        assert |ALIAS_GROUPS[FirstHit(ALIAS_GROUPS, instrumentLower, 0).value]| > 0;
      }
    }
    var t := terms[0];
    assert ToLowerAscii(mentor.genres[k]) == "";
    assert OccursAt(t, "", 0);
    assert Contains(t, ToLowerAscii(mentor.genres[k]));
    assert t in terms;
  }

  // ----- scoring and ranking -----

  datatype MatchResult = MatchResult(mentor: MentorProfile, score: int, isRecommended: bool, isPerfectMatch: bool)

  const RECOMMENDED_SCORE: int := 80
  const PERFECT_SCORE: int := 90
  const TOP_PICK_SCORE: int := 80

  function ResultOf(mentor: MentorProfile, score: int): (r: MatchResult)
    ensures r.mentor == mentor && r.score == score
    ensures r.isRecommended <==> score >= RECOMMENDED_SCORE
    ensures r.isPerfectMatch <==> score >= PERFECT_SCORE
  {
    MatchResult(mentor, score, score >= RECOMMENDED_SCORE, score >= PERFECT_SCORE)
  }

  /** The sort key of `(a, b) => b.score - a.score`: higher scores first. */
  function NegScore(r: MatchResult): int
  {
    -r.score
  }

  /** `MIN_MATCH_SCORE`: 30 when an instrument narrowed the pool, 70 otherwise. */
  function MinMatchScore(criteria: Criteria): (t: int)
    ensures t == 30 || t == 70
    ensures t == 30 <==> criteria.instrument.Some? && criteria.instrument.value != ""
  {
    if criteria.instrument.Some? && criteria.instrument.value != "" then 30 else 70
  }

  datatype Suggestion = Suggestion(mentor: MentorProfile, matchResult: MatchResult, isTopPick: bool)

  datatype SearchResponse = SearchResponse(mentors: seq<Suggestion>, totalFound: nat, searchQuality: real)

  function Score(r: MatchResult): int
  {
    r.score
  }

  function Suggestions(top: seq<MatchResult>): (s: seq<Suggestion>)
    ensures |s| == |top|
    ensures forall i :: 0 <= i < |top| ==> s[i].mentor == top[i].mentor && s[i].matchResult == top[i]
    ensures forall i :: 0 <= i < |top| ==> (s[i].isTopPick <==> i == 0 && top[i].score >= TOP_PICK_SCORE)
  {
    seq(|top|, i requires 0 <= i < |top| => Suggestion(top[i].mentor, top[i], i == 0 && top[i].score >= TOP_PICK_SCORE))
  }

  /** The mean score of the top matches over 100, or 0 when there are none. */
  function SearchQuality(top: seq<MatchResult>): real
  {
    if |top| > 0 then SumInt(top, Score) as real / |top| as real / 100.0 else 0.0
  }

  /** The ranked, thresholded and truncated results of the scored pool. */
  function Ranked(results: seq<MatchResult>, minScore: int, take: nat): seq<MatchResult>
  {
    var qualified := Qualified(results, minScore);
    qualified[..Min(take, |qualified|)]
  }

  /** The pool sorted by descending score, cut at the threshold. */
  function Qualified(results: seq<MatchResult>, minScore: int): seq<MatchResult>
  {
    Filter(Sorting.SortBy(results, NegScore), (r: MatchResult) => r.score >= minScore)
  }

  /** The response for a non-empty mentor pool after the instrument filter. */
  function Respond(candidates: seq<MentorProfile>, scores: MentorProfile -> int, minScore: int, take: nat): SearchResponse
  {
    var results := seq(|candidates|, i requires 0 <= i < |candidates| => ResultOf(candidates[i], scores(candidates[i])));
    var top := Ranked(results, minScore, take);
    SearchResponse(Suggestions(top), |results|, SearchQuality(top))
  }

  /** The mentors left after the optional instrument pre-filter. */
  function Candidates(criteria: Criteria, users: seq<MentorUser>): seq<MentorProfile>
  {
    var mentors := seq(|users|, i requires 0 <= i < |users| => UserToMentorProfile(users[i]));
    if criteria.instrument.Some? && criteria.instrument.value != "" then
      var terms := MatchTerms(ToLowerAscii(criteria.instrument.value));
      Filter(mentors, (m: MentorProfile) => MentorMatches(m, terms))
    else mentors
  }

  /**
   * The handler's answer. `users` is the pool `findMentors(50)` returned and `score` stands for
   * `calculateMatchScore`'s total against the student profile.
   */
  function SearchSpec(userId: string, request: SearchRequest, users: seq<MentorUser>,
                      score: (StudentProfile, MentorProfile) -> int): Result<SearchResponse>
  {
    if !ValidRequest(request) then Err(INVALID_REQUEST)
    else if users == [] then Ok(SearchResponse([], 0, 0.0))
    else
      var student := CriteriaToStudentProfile(userId, request.criteria);
      Ok(Respond(Candidates(request.criteria, users), (m: MentorProfile) => score(student, m),
                 MinMatchScore(request.criteria), TakeCount(Limit(request))))
  }

  /** The POST handler. */
  method Search(userId: string, request: SearchRequest, users: seq<MentorUser>,
                score: (StudentProfile, MentorProfile) -> int) returns (r: Result<SearchResponse>)
    ensures r == SearchSpec(userId, request, users, score)
    ensures r.Err? <==> !ValidRequest(request)
  {
    if !ValidRequest(request) {
      return Err(INVALID_REQUEST);
    }
    if users == [] {
      return Ok(SearchResponse([], 0, 0.0));
    }
    var mentors := seq(|users|, i requires 0 <= i < |users| => UserToMentorProfile(users[i]));
    var criteria := request.criteria;
    if criteria.instrument.Some? && criteria.instrument.value != "" {
      var terms := FindMatchTerms(ToLowerAscii(criteria.instrument.value));
      mentors := Filter(mentors, (m: MentorProfile) => MentorMatches(m, terms));
    }
    var student := CriteriaToStudentProfile(userId, criteria);
    r := Ok(Respond(mentors, (m: MentorProfile) => score(student, m), MinMatchScore(criteria), TakeCount(Limit(request))));
  }

  // ----- what the ranking promises -----

  /** Filtering a key-ordered sequence keeps it key-ordered. */
  lemma {:induction false} FilterKeepsOrder<T>(s: seq<T>, key: T -> int, p: T -> bool)
    requires Sorting.SortedBy(s, key)
    ensures Sorting.SortedBy(Filter(s, p), key)
  {
    if s != [] {
      assert Sorting.SortedBy(s[..|s| - 1], key);
      FilterKeepsOrder(s[..|s| - 1], key, p);
      FilterOrderStep(s, key, p);
    }
  }

  /** One more element filtered at the end keeps the result key-ordered. */
  lemma FilterOrderStep<T>(s: seq<T>, key: T -> int, p: T -> bool)
    requires Sorting.SortedBy(s, key) && s != [] && Sorting.SortedBy(Filter(s[..|s| - 1], p), key)
    ensures Sorting.SortedBy(Filter(s, p), key)
  {
    var last := s[|s| - 1];
    var f := Filter(s[..|s| - 1], p);
    assert Filter(s, p) == f + (if p(last) then [last] else []);
    if p(last) {
      if |f| > 0 {
        FilteredBelowLast(s, key, p);
      }
      SortedSnoc(f, key, last);
    }
  }

  /** What filtering keeps before the last element has keys no larger than the last one's. */
  lemma FilteredBelowLast<T>(s: seq<T>, key: T -> int, p: T -> bool)
    requires Sorting.SortedBy(s, key) && s != [] && Filter(s[..|s| - 1], p) != []
    ensures var f := Filter(s[..|s| - 1], p); key(f[|f| - 1]) <= key(s[|s| - 1])
  {
    var prev := s[..|s| - 1];
    var f := Filter(prev, p);
    assert f[|f| - 1] in prev;
    var k :| 0 <= k < |prev| && prev[k] == f[|f| - 1];
    Sorting.SortedByApart(s, key, k, |s| - 1);
  }

  lemma SortedSnoc<T>(f: seq<T>, key: T -> int, last: T)
    requires Sorting.SortedBy(f, key)
    requires f != [] ==> key(f[|f| - 1]) <= key(last)
    ensures Sorting.SortedBy(f + [last], key)
  {
    var r := f + [last];
    assert forall i :: 0 <= i < |f| ==> r[i] == f[i];
  }

  /**
   * The returned matches: at most `take` of them, every one at or above the threshold, in
   * descending score, and each taken from the scored pool.
   */
  lemma RankedOrder(results: seq<MatchResult>, minScore: int, take: nat)
    ensures |Ranked(results, minScore, take)| <= take
    ensures forall i :: 0 <= i < |Ranked(results, minScore, take)| ==>
      Ranked(results, minScore, take)[i].score >= minScore && Ranked(results, minScore, take)[i] in results
    ensures forall i, j :: 0 <= i <= j < |Ranked(results, minScore, take)| ==>
      Ranked(results, minScore, take)[i].score >= Ranked(results, minScore, take)[j].score
  {
    var qualified := Qualified(results, minScore);
    QualifiedOrdered(results, minScore);
    var top := Ranked(results, minScore, take);
    assert forall i :: 0 <= i < |top| ==> top[i] == qualified[i];
    forall i, j | 0 <= i <= j < |top|
      ensures top[i].score >= top[j].score
    {
      Sorting.SortedByApart(qualified, NegScore, i, j);
    }
  }

  /** The qualified pool is in descending score, at or above the threshold, and holds every pool entry that is. */
  lemma QualifiedOrdered(results: seq<MatchResult>, minScore: int)
    ensures Sorting.SortedBy(Qualified(results, minScore), NegScore)
    ensures forall x :: x in Qualified(results, minScore) <==> x in results && x.score >= minScore
  {
    var sorted := Sorting.SortBy(results, NegScore);
    Sorting.SortByProperties(results, NegScore);
    Sorting.SortByMembers(results, NegScore);
    FilterKeepsOrder(sorted, NegScore, (r: MatchResult) => r.score >= minScore);
  }

  /**
   * No qualifying mentor is passed over for a lower one: a pool entry at or above the threshold
   * that is not returned finds the list full, with every returned score at least its own.
   */
  lemma RankedComplete(results: seq<MatchResult>, minScore: int, take: nat, x: MatchResult)
    requires x in results && x.score >= minScore
    requires x !in Ranked(results, minScore, take)
    ensures |Ranked(results, minScore, take)| == take
    ensures forall i :: 0 <= i < |Ranked(results, minScore, take)| ==> Ranked(results, minScore, take)[i].score >= x.score
  {
    var qualified := Qualified(results, minScore);
    QualifiedOrdered(results, minScore);
    assert x in qualified;
    var j :| 0 <= j < |qualified| && qualified[j] == x;
    var top := Ranked(results, minScore, take);
    assert forall i :: 0 <= i < |top| ==> top[i] == qualified[i];
    forall i | 0 <= i < |top|
      ensures top[i].score >= x.score
    {
      Sorting.SortedByApart(qualified, NegScore, i, j);
    }
  }

  /** With scores on the matching scale (at most 100), the quality of a non-empty answer lies in [threshold / 100, 1]. */
  lemma QualityBounds(top: seq<MatchResult>, minScore: int)
    requires top != []
    requires forall i :: 0 <= i < |top| ==> minScore <= top[i].score <= 100
    ensures minScore as real / 100.0 <= SearchQuality(top) <= 1.0
  {
    assert forall x :: x in top ==> minScore <= Score(x) <= 100;
    var n := |top| as real;
    var total := SumInt(top, Score) as real;
    assert n * minScore as real <= total <= n * 100.0 by {
      SumIntBounds(top, Score, minScore, 100);
      assert (|top| * minScore) as real == n * minScore as real;
      assert (|top| * 100) as real == n * 100.0;
    }
    QuotientWithin(total, n, minScore as real, 100.0);
    var mean := total / n;
    assert SearchQuality(top) == mean / 100.0;
  }

  /** An empty mentor pool answers like any pool from which nothing qualifies: nothing found. */
  lemma EmptyPoolAnswersNothing(userId: string, request: SearchRequest, score: (StudentProfile, MentorProfile) -> int)
    requires ValidRequest(request)
    ensures SearchSpec(userId, request, [], score) == Ok(SearchResponse([], 0, 0.0))
    ensures Respond([], (m: MentorProfile) => 0, 70, 5) == SearchResponse([], 0, 0.0)
  {
    var results: seq<MatchResult> := [];
    assert Sorting.SortBy(results, NegScore) == [];
  }
}

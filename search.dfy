/**
 * The search page of pages/Search.tsx: fetch every match, keep those whose
 * title, category or team names contain the query (ignoring case), and
 * publish the result through the page's `matches` and `loading` state.
 */
module Search {
  import opened Wrappers
  import opened Strings
  import opened JsonValue
  import opened Api

  /** What `match.teams?.<side>?.name.toLowerCase()` does with one side of the teams. */
  datatype NameRead = Absent | Name(name: string) | Throws

  /** The four strings the filter callback reads from one match. */
  datatype Candidate = Candidate(title: string, category: string, home: Option<string>, away: Option<string>)

  /** The optional chain stops at a nullish side; a present side without a string name makes `toLowerCase` throw. */
  function ReadTeamName(teams: Json, side: string): (r: NameRead)
    ensures r == Absent <==> Field(teams, side) == JNull
    ensures r.Name? ==> Field(Field(teams, side), "name") == JStr(r.name)
    ensures r == Throws <==> Field(teams, side) != JNull && !Field(Field(teams, side), "name").JStr?
  {
    var team := Field(teams, side);
    if team == JNull then Absent
    else match Field(team, "name")
      case JStr(s) => Name(s)
      case _ => Throws
  }

  /** The callback's view of a match, or None when evaluating it throws a TypeError. */
  function ReadCandidate(j: Json): (r: Option<Candidate>)
    ensures r.Some? ==> Field(j, "title") == JStr(r.value.title) && Field(j, "category") == JStr(r.value.category)
    ensures r.Some? && Field(j, "teams") == JNull ==> r.value.home.None? && r.value.away.None?
    ensures r.None? <==>
              || !Field(j, "title").JStr?
              || !Field(j, "category").JStr?
              || (Field(Field(j, "teams"), "home") != JNull && !Field(Field(Field(j, "teams"), "home"), "name").JStr?)
              || (Field(Field(j, "teams"), "away") != JNull && !Field(Field(Field(j, "teams"), "away"), "name").JStr?)
    ensures r.Some? ==> forall s :: r.value.home == Some(s) <==> Field(Field(Field(j, "teams"), "home"), "name") == JStr(s)
    ensures r.Some? ==> forall s :: r.value.away == Some(s) <==> Field(Field(Field(j, "teams"), "away"), "name") == JStr(s)
  {
    var home := ReadTeamName(Field(j, "teams"), "home");
    var away := ReadTeamName(Field(j, "teams"), "away");
    if Field(j, "title").JStr? && Field(j, "category").JStr? && !home.Throws? && !away.Throws? then
      Some(Candidate(
             Field(j, "title").s,
             Field(j, "category").s,
             if home.Name? then Some(home.name) else None,
             if away.Name? then Some(away.name) else None))
    else None
  }

  /** `lowerQuery` occurs in the lower-cased string. */
  predicate Hit(text: string, lowerQuery: string) {
    Contains(Lower(text), lowerQuery)
  }

  /** The filter rule: title, home name, away name or category contains the lower-cased query. */
  predicate Keeps(lowerQuery: string, c: Candidate)
    ensures lowerQuery == "" ==> Keeps(lowerQuery, c)
  {
    ContainsEmpty(Lower(c.title));
    || Hit(c.title, lowerQuery)
    || (c.home.Some? && Hit(c.home.value, lowerQuery))
    || (c.away.Some? && Hit(c.away.value, lowerQuery))
    || Hit(c.category, lowerQuery)
  }

  /** A match is kept when the callback reads it without throwing and the rule holds. */
  predicate KeepsItem(lowerQuery: string, j: Json)
    ensures KeepsItem(lowerQuery, j) ==> Field(j, "title").JStr? && Field(j, "category").JStr?
    ensures Field(j, "teams") == JNull && ReadCandidate(j).Some? ==>
              (KeepsItem(lowerQuery, j) <==>
                 Hit(ReadCandidate(j).value.title, lowerQuery) || Hit(ReadCandidate(j).value.category, lowerQuery))
  {
    ReadCandidate(j).Some? && Keeps(lowerQuery, ReadCandidate(j).value)
  }

  /** No element makes the filter callback throw. */
  predicate Readable(items: seq<Json>) {
    forall i :: 0 <= i < |items| ==> ReadCandidate(items[i]).Some?
  }

  const TypeErrorMessage: string := "TypeError"

  /** `allMatches.filter(...)`: the kept matches in order, or the TypeError of the first unreadable one. */
  function Filter(lowerQuery: string, items: seq<Json>): (r: Result<seq<Json>>)
    ensures r.Ok? <==> Readable(items)
    ensures r.Ok? ==> |r.value| <= |items|
    ensures r.Ok? ==> forall x :: x in r.value <==> x in items && KeepsItem(lowerQuery, x)
    ensures r.Ok? ==> forall x :: multiset(r.value)[x] == if KeepsItem(lowerQuery, x) then multiset(items)[x] else 0
    decreases |items|
  {
    if items == [] then Ok([])
    else
      match ReadCandidate(items[0])
      case None => Err(TypeErrorMessage)
      case Some(c) =>
        match Filter(lowerQuery, items[1..])
        case Err(m) => Err(m)
        case Ok(rest) =>
          assert forall i :: 1 <= i < |items| ==> items[i] == items[1..][i - 1];
          assert items == [items[0]] + items[1..];
          assert multiset(items) == multiset([items[0]]) + multiset(items[1..]);
          Ok(if Keeps(lowerQuery, c) then [items[0]] + rest else rest)
  }

  /** `a` is `b` with some elements left out, the rest kept in order. */
  predicate IsSubsequence(a: seq<Json>, b: seq<Json>)
    decreases |b|
  {
    a == [] || (b != [] && if a[0] == b[0] then IsSubsequence(a[1..], b[1..]) else IsSubsequence(a, b[1..]))
  }

  lemma {:induction false} SubsequenceOfTail(a: seq<Json>, b: seq<Json>)
    requires b != [] && IsSubsequence(a, b[1..])
    ensures IsSubsequence(a, b)
    decreases |b|, 0
  {
    if a != [] && a[0] == b[0] {
      SubsequenceDropHead(a, b[1..]);
    }
  }

  lemma {:induction false} SubsequenceDropHead(a: seq<Json>, b: seq<Json>)
    requires a != [] && IsSubsequence(a, b)
    ensures IsSubsequence(a[1..], b)
    decreases |b|, 1
  {
    if a[0] == b[0] {
      SubsequenceOfTail(a[1..], b);
    } else {
      SubsequenceDropHead(a, b[1..]);
      SubsequenceOfTail(a[1..], b);
    }
  }

  /** The filter keeps the order of the fetched list: its result is a subsequence of it. */
  lemma {:induction false} FilterIsSubsequence(lowerQuery: string, items: seq<Json>)
    requires Filter(lowerQuery, items).Ok?
    ensures IsSubsequence(Filter(lowerQuery, items).value, items)
    decreases |items|
  {
    if items != [] {
      var rest := Filter(lowerQuery, items[1..]).value;
      FilterIsSubsequence(lowerQuery, items[1..]);
      if !Keeps(lowerQuery, ReadCandidate(items[0]).value) {
        SubsequenceOfTail(rest, items);
      } else {
        assert ([items[0]] + rest)[1..] == rest;
      }
    }
  }

  /** The results `performSearch` publishes for a query and the reply to `/matches`. */
  function SearchResults(query: string, reply: Reply): (r: seq<Json>)
    ensures query == "" ==> r == []
    ensures forall x :: x in r ==> KeepsItem(Lower(query), x)
    ensures FetchList(AllMatches, reply).Err? ==> r == []
  {
    if query == "" then []
    else
      match FetchList(AllMatches, reply)
      case Err(_) => []
      case Ok(all) =>
        match Filter(Lower(query), all)
        case Ok(kept) => kept
        case Err(_) => []
  }

  /** An empty query gives no results whatever the server would have answered. */
  lemma EmptyQueryIgnoresServer(reply1: Reply, reply2: Reply)
    ensures SearchResults("", reply1) == SearchResults("", reply2) == []
  {
  }

  /** The results are an order-preserving subsequence of the fetched list, hence no longer than it. */
  lemma SearchResultsAreSubsequence(query: string, reply: Reply, all: seq<Json>)
    requires FetchList(AllMatches, reply) == Ok(all)
    ensures IsSubsequence(SearchResults(query, reply), all)
    ensures |SearchResults(query, reply)| <= |all|
  {
    if query != "" && Filter(Lower(query), all).Ok? {
      FilterIsSubsequence(Lower(query), all);
    }
  }

  /** A readable fetched match is in the results exactly when the filter rule keeps it. */
  lemma SearchResultsExactly(query: string, reply: Reply, all: seq<Json>, x: Json)
    requires query != "" && FetchList(AllMatches, reply) == Ok(all) && Readable(all)
    ensures x in SearchResults(query, reply) <==> x in all && KeepsItem(Lower(query), x)
  {
  }

  /** One match the callback cannot read (say, without a title) empties the whole result. */
  lemma UnreadableMatchEmptiesResults(query: string, reply: Reply, all: seq<Json>, i: nat)
    requires query != "" && FetchList(AllMatches, reply) == Ok(all)
    requires i < |all| && ReadCandidate(all[i]).None?
    ensures SearchResults(query, reply) == []
  {
  }

  /** A match whose title contains the query verbatim is found, whatever the letter case of either. */
  lemma TitleContainingQueryIsFound(query: string, reply: Reply, all: seq<Json>, x: Json)
    requires query != "" && FetchList(AllMatches, reply) == Ok(all) && Readable(all)
    requires x in all && Contains(ReadCandidate(x).value.title, query)
    ensures x in SearchResults(query, reply)
  {
    LowerKeepsContains(ReadCandidate(x).value.title, query);
  }

  /** The page state the search effect drives. */
  class SearchPage {
    var matches: seq<Json>
    var loading: bool

    constructor ()
      ensures matches == [] && loading
    {
      matches := [];
      loading := true;
    }

    /** The synchronous part of the effect: a non-empty query starts loading, an empty one clears the page. */
    method Start(query: string)
      modifies this
      ensures query == "" ==> matches == [] && !loading
      ensures query != "" ==> matches == old(matches) && loading
    {
      if query != "" {
        loading := true;
      } else {
        matches := [];
        loading := false;
      }
    }

    /** `performSearch` once the reply to `/matches` has arrived: publish the results, stop loading. */
    method Finish(query: string, reply: Reply)
      requires query != ""
      modifies this
      ensures matches == SearchResults(query, reply) && !loading
    {
      var fetched := FetchList(AllMatches, reply);
      match fetched {
        case Err(_) =>
          matches := [];
        case Ok(all) =>
          var filtered := Filter(Lower(query), all);
          match filtered {
            case Ok(kept) => matches := kept;
            case Err(_) => matches := [];
          }
      }
      loading := false;
    }

    /** One complete run of the effect for a query: every run ends with loading false. */
    method RunEffect(query: string, reply: Reply)
      modifies this
      ensures matches == SearchResults(query, reply) && !loading
    {
      Start(query);
      if query != "" {
        Finish(query, reply);
      }
    }
  }
}

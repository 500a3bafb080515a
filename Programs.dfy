/** The program catalogue's filter: a case-insensitive search on name or
    description, and a type and a region filter for which "all" matches
    every program. */
module Programs {
  import opened JsString

  const AllFilter := "all"

  datatype Program = Program(
    id: int, name: string, programType: string, deadline: string, region: string,
    description: string, eligibility: seq<string>, matchScore: int)

  predicate MatchesSearch(p: Program, query: string)
  {
    Includes(ToLower(p.name), ToLower(query)) || Includes(ToLower(p.description), ToLower(query))
  }

  predicate MatchesType(p: Program, typeFilter: string)
  {
    typeFilter == AllFilter || p.programType == typeFilter
  }

  predicate MatchesRegion(p: Program, regionFilter: string)
  {
    regionFilter == AllFilter || p.region == regionFilter
  }

  /** The predicate handed to `filter`; with an empty query and both filters
      on "all" (the page's initial state) it keeps every program. */
  predicate Keep(p: Program, query: string, typeFilter: string, regionFilter: string)
    ensures query == "" && typeFilter == AllFilter && regionFilter == AllFilter ==>
      Keep(p, query, typeFilter, regionFilter)
  {
    IncludesEmpty(ToLower(p.name));
    MatchesSearch(p, query) && MatchesType(p, typeFilter) && MatchesRegion(p, regionFilter)
  }

  /** The programs that pass all three tests, in catalogue order: exactly the
      catalogue's programs that satisfy `Keep`. */
  function FilterPrograms(programs: seq<Program>, query: string, typeFilter: string, regionFilter: string)
    : (r: seq<Program>)
    ensures |r| <= |programs|
    ensures forall p :: p in r ==> p in programs && Keep(p, query, typeFilter, regionFilter)
    ensures forall p :: p in programs && Keep(p, query, typeFilter, regionFilter) ==> p in r
  {
    if programs == [] then []
    else
      (if Keep(programs[0], query, typeFilter, regionFilter) then [programs[0]] else []) +
      FilterPrograms(programs[1..], query, typeFilter, regionFilter)
  }

  /** Each programme appears in the result as often as in the catalogue when
      it passes the tests, and not at all otherwise: duplicates are kept. */
  lemma {:induction false} FilterCounts(programs: seq<Program>, query: string, typeFilter: string, regionFilter: string)
    ensures forall p :: multiset(FilterPrograms(programs, query, typeFilter, regionFilter))[p] ==
                       (if Keep(p, query, typeFilter, regionFilter) then multiset(programs)[p] else 0)
  {
    if programs != [] {
      FilterCounts(programs[1..], query, typeFilter, regionFilter);
      assert programs == [programs[0]] + programs[1..];
    }
  }

  /** `a` is `b` with some elements left out and the rest in their order. */
  predicate IsSubsequence<T(==)>(a: seq<T>, b: seq<T>)
    decreases |b|
  {
    a == [] || (b != [] && ((a[0] == b[0] && IsSubsequence(a[1..], b[1..])) || IsSubsequence(a, b[1..])))
  }

  /** The result keeps the catalogue's order. */
  lemma {:induction false} FilterIsSubsequence(programs: seq<Program>, query: string, typeFilter: string, regionFilter: string)
    ensures IsSubsequence(FilterPrograms(programs, query, typeFilter, regionFilter), programs)
  {
    if programs != [] {
      FilterIsSubsequence(programs[1..], query, typeFilter, regionFilter);
      var rest := FilterPrograms(programs[1..], query, typeFilter, regionFilter);
      if Keep(programs[0], query, typeFilter, regionFilter) {
        assert FilterPrograms(programs, query, typeFilter, regionFilter) == [programs[0]] + rest;
        assert ([programs[0]] + rest)[1..] == rest;
      } else {
        assert FilterPrograms(programs, query, typeFilter, regionFilter) == rest;
        SubsequenceOfTail(rest, programs);
      }
    }
  }

  lemma {:induction false} SubsequenceOfTail<T>(a: seq<T>, b: seq<T>)
    requires b != [] && IsSubsequence(a, b[1..])
    ensures IsSubsequence(a, b)
  {
  }

  /** With no search text and both filters on "all", nothing is filtered out. */
  lemma {:induction false} FilterNothing(programs: seq<Program>)
    ensures FilterPrograms(programs, "", AllFilter, AllFilter) == programs
  {
    if programs != [] {
      IncludesEmpty(ToLower(programs[0].name));
      assert ToLower("") == "";
      FilterNothing(programs[1..]);
      assert [programs[0]] + programs[1..] == programs;
    }
  }

  /** A stricter predicate keeps a subsequence of what a looser one keeps. */
  lemma {:induction false} FilterMonotone(programs: seq<Program>,
                                          query: string, typeFilter: string, regionFilter: string,
                                          query': string, typeFilter': string, regionFilter': string)
    requires forall p :: Keep(p, query, typeFilter, regionFilter) ==> Keep(p, query', typeFilter', regionFilter')
    ensures IsSubsequence(FilterPrograms(programs, query, typeFilter, regionFilter),
                          FilterPrograms(programs, query', typeFilter', regionFilter'))
  {
    if programs != [] {
      var p0 := programs[0];
      var strict := FilterPrograms(programs[1..], query, typeFilter, regionFilter);
      var loose := FilterPrograms(programs[1..], query', typeFilter', regionFilter');
      FilterMonotone(programs[1..], query, typeFilter, regionFilter, query', typeFilter', regionFilter');
      var whole := FilterPrograms(programs, query, typeFilter, regionFilter);
      var whole' := FilterPrograms(programs, query', typeFilter', regionFilter');
      if Keep(p0, query, typeFilter, regionFilter) {
        assert whole == [p0] + strict && whole' == [p0] + loose;
        assert whole[0] == whole'[0] && whole[1..] == strict && whole'[1..] == loose;
      } else if Keep(p0, query', typeFilter', regionFilter') {
        assert whole == strict && whole' == [p0] + loose;
        assert whole'[1..] == loose;
        SubsequenceOfTail(strict, whole');
      } else {
        assert whole == strict && whole' == loose;
      }
    }
  }

  /** Choosing a type instead of "all" never adds a program, and never reorders. */
  lemma TypeFilterNarrows(programs: seq<Program>, query: string, typeFilter: string, regionFilter: string)
    ensures IsSubsequence(FilterPrograms(programs, query, typeFilter, regionFilter),
                          FilterPrograms(programs, query, AllFilter, regionFilter))
  {
    FilterMonotone(programs, query, typeFilter, regionFilter, query, AllFilter, regionFilter);
  }

  /** Choosing a region instead of "all" never adds a program, and never reorders. */
  lemma RegionFilterNarrows(programs: seq<Program>, query: string, typeFilter: string, regionFilter: string)
    ensures IsSubsequence(FilterPrograms(programs, query, typeFilter, regionFilter),
                          FilterPrograms(programs, query, typeFilter, AllFilter))
  {
    FilterMonotone(programs, query, typeFilter, regionFilter, query, typeFilter, AllFilter);
  }

  /** The search ignores ASCII case: lower-casing the query first changes nothing. */
  lemma SearchIgnoresCase(p: Program, query: string)
    ensures MatchesSearch(p, query) <==> MatchesSearch(p, ToLower(query))
  {
    ToLowerIdempotent(query);
  }
}

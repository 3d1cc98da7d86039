/**
 * `filterProjects`: the view of the cached project list that matches the search box and the
 * status selector. The search term is lower-cased and looked up in the lower-cased name or
 * type; a non-empty status must match exactly.
 */
module Filter {
  import opened Text
  import opened Records

  /** The name or the type, lower-cased, contains the (already lower-cased) term. */
  predicate MatchesSearch(p: Project, term: string)
  {
    Includes(ToLower(p.name), term) || Includes(ToLower(p.projectType), term)
  }

  /** `!statusFilter || project.status === statusFilter`. */
  predicate MatchesStatus(p: Project, statusFilter: string)
  {
    statusFilter == "" || p.status == statusFilter
  }

  predicate Keep(p: Project, term: string, statusFilter: string)
  {
    MatchesSearch(p, term) && MatchesStatus(p, statusFilter)
  }

  /** `Array.prototype.filter` with the predicate above: a record is in the result iff it is
      in the input and is kept. */
  function Select(ps: seq<Project>, term: string, statusFilter: string): (r: seq<Project>)
    ensures |r| <= |ps|
    ensures forall p :: p in r <==> p in ps && Keep(p, term, statusFilter)
  {
    if ps == [] then []
    else (if Keep(ps[0], term, statusFilter) then [ps[0]] else []) + Select(ps[1..], term, statusFilter)
  }

  /** The filtered view computed from the full cache `all`, the search box value and the
      status selector value. */
  function FilterProjects(all: seq<Project>, searchValue: string, statusFilter: string): (view: seq<Project>)
    ensures |view| <= |all|
    ensures forall p :: p in view <==> p in all && Keep(p, ToLower(searchValue), statusFilter)
  {
    Select(all, ToLower(searchValue), statusFilter)
  }

  /** `xs` is `ys` with some elements left out, the rest kept in their order. */
  predicate IsSubsequence(xs: seq<Project>, ys: seq<Project>)
  {
    if xs == [] then true
    else if ys == [] then false
    else if xs[0] == ys[0] then IsSubsequence(xs[1..], ys[1..])
    else IsSubsequence(xs, ys[1..])
  }

  lemma {:induction false} SelectIsSubsequence(ps: seq<Project>, term: string, statusFilter: string)
    ensures IsSubsequence(Select(ps, term, statusFilter), ps)
  {
    if ps != [] {
      SelectIsSubsequence(ps[1..], term, statusFilter);
      var rest := Select(ps[1..], term, statusFilter);
      if Keep(ps[0], term, statusFilter) {
        assert ([ps[0]] + rest)[1..] == rest;
      } else if rest != [] {
        assert rest[0] in rest;
        assert Select(ps, term, statusFilter) == rest;
      }
    }
  }

  lemma {:induction false} SelectCounts(ps: seq<Project>, term: string, statusFilter: string, p: Project)
    ensures multiset(Select(ps, term, statusFilter))[p]
         == if Keep(p, term, statusFilter) then multiset(ps)[p] else 0
  {
    if ps != [] {
      SelectCounts(ps[1..], term, statusFilter, p);
      assert ps == [ps[0]] + ps[1..];
    }
  }

  /** The filter's result is an order-preserving subsequence of the full cache that keeps
      every matching record as often as the cache holds it and nothing else. */
  lemma FilterSpec(all: seq<Project>, searchValue: string, statusFilter: string)
    ensures var r := FilterProjects(all, searchValue, statusFilter);
      && IsSubsequence(r, all)
      && (forall p :: p in r ==> Keep(p, ToLower(searchValue), statusFilter))
      && (forall p :: Keep(p, ToLower(searchValue), statusFilter) ==> multiset(r)[p] == multiset(all)[p])
  {
    SelectIsSubsequence(all, ToLower(searchValue), statusFilter);
    forall p | Keep(p, ToLower(searchValue), statusFilter)
      ensures multiset(FilterProjects(all, searchValue, statusFilter))[p] == multiset(all)[p]
    {
      SelectCounts(all, ToLower(searchValue), statusFilter, p);
    }
  }

  lemma {:induction false} SelectAll(ps: seq<Project>, term: string, statusFilter: string)
    requires forall p :: p in ps ==> Keep(p, term, statusFilter)
    ensures Select(ps, term, statusFilter) == ps
  {
    if ps != [] {
      SelectAll(ps[1..], term, statusFilter);
    }
  }

  /** An empty search box and an empty status selector show the whole cache unchanged. */
  lemma FilterEmptyCriteria(all: seq<Project>)
    ensures FilterProjects(all, "", "") == all
  {
    assert ToLower("") == "";
    forall p | p in all
      ensures Keep(p, "", "")
    {
      IncludesEmpty(ToLower(p.name));
    }
    SelectAll(all, "", "");
  }

  /** Case does not matter in the search box. */
  lemma FilterIgnoresCase(all: seq<Project>, searchValue: string, statusFilter: string)
    ensures FilterProjects(all, ToLower(searchValue), statusFilter) == FilterProjects(all, searchValue, statusFilter)
  {
    LowerIdempotent(searchValue);
  }

  /** Filtering the filtered view again changes nothing, so recomputing from the full cache
      on every keystroke gives the same view as narrowing a previous one with the same criteria. */
  lemma FilterIdempotent(all: seq<Project>, searchValue: string, statusFilter: string)
    ensures var once := FilterProjects(all, searchValue, statusFilter);
      FilterProjects(once, searchValue, statusFilter) == once
  {
    var once := FilterProjects(all, searchValue, statusFilter);
    SelectAll(once, ToLower(searchValue), statusFilter);
  }
}

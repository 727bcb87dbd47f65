/**
 * The project list of `loadGitHubData` (public, non-fork repositories,
 * most stars first, at most six) and the cards `updateProjects` makes of it.
 *
 * `Array.prototype.sort` has been required to be stable since the 2019
 * edition of ECMA-262, so the comparator `b.stars - a.stars` orders by stars,
 * highest first, and keeps equal-star repositories in their input order.
 * `SortByStars` is an insertion sort with that behaviour, and
 * `StableSortIsUnique` shows that every stable sort by stars returns the
 * same list.
 */
module Projects {
  import opened Wrappers
  import opened JsText
  import opened Translations

  /** The fields of one repository of the API's repository list that the script reads. */
  datatype Repo = Repo(
    name: string,
    description: Option<string>,
    stars: int,
    htmlUrl: string,
    isPrivate: bool,
    isFork: bool)

  /** "Show top 6 repositories". */
  const MaxProjects := 6

  function Min(a: int, b: int): int {
    if a <= b then a else b
  }

  /** The repositories the page shows at all. */
  predicate Eligible(r: Repo) {
    !r.isPrivate && !r.isFork
  }

  /** `.filter((repo) => !repo.private && !repo.fork)`. */
  function FilterEligible(rs: seq<Repo>): seq<Repo> {
    if rs == [] then []
    else (if Eligible(rs[0]) then [rs[0]] else []) + FilterEligible(rs[1..])
  }

  /** The filter keeps every eligible repository, as often as the input lists it, and nothing else. */
  lemma {:induction false} FilterEligibleCounts(rs: seq<Repo>)
    ensures forall x :: multiset(FilterEligible(rs))[x] == if Eligible(x) then multiset(rs)[x] else 0
  {
    if rs != [] {
      assert rs == [rs[0]] + rs[1..];
      FilterEligibleCounts(rs[1..]);
    }
  }

  /** Highest star count first. */
  predicate SortedByStars(s: seq<Repo>) {
    forall i, j | 0 <= i < j < |s| :: s[i].stars >= s[j].stars
  }

  /** The entries of `s` that have exactly `k` stars, in their order in `s`. */
  function WithStars(s: seq<Repo>, k: int): seq<Repo> {
    if s == [] then []
    else (if s[0].stars == k then [s[0]] else []) + WithStars(s[1..], k)
  }

  /** Puts `x` in front of the first entry that has no more stars than it. */
  function Insert(x: Repo, s: seq<Repo>): (r: seq<Repo>)
    ensures |r| == |s| + 1
  {
    if s == [] || x.stars >= s[0].stars then [x] + s
    else [s[0]] + Insert(x, s[1..])
  }

  /** Insertion adds exactly `x`. */
  lemma {:induction false} InsertPermutes(x: Repo, s: seq<Repo>)
    ensures multiset(Insert(x, s)) == multiset(s) + multiset{x}
  {
    if s != [] && x.stars < s[0].stars {
      assert s == [s[0]] + s[1..];
      InsertPermutes(x, s[1..]);
    }
  }

  /** An entry with at least as many stars as every entry of a sorted list can go in front of it. */
  lemma ConsSorted(y: Repo, t: seq<Repo>)
    requires SortedByStars(t)
    requires forall z | z in t :: z.stars <= y.stars
    ensures SortedByStars([y] + t)
  {
    var r := [y] + t;
    forall i, j | 0 <= i < j < |r| ensures r[i].stars >= r[j].stars {
      assert r[j] == t[j - 1];
      if i > 0 {
        assert r[i] == t[i - 1];
      }
    }
  }

  /** Inserting into a list sorted by stars keeps it sorted. */
  lemma {:induction false} InsertSorted(x: Repo, s: seq<Repo>)
    requires SortedByStars(s)
    ensures SortedByStars(Insert(x, s))
  {
    if s == [] || x.stars >= s[0].stars {
      forall z | z in s ensures z.stars <= x.stars {
        var k :| 0 <= k < |s| && s[k] == z;
        assert s[0].stars >= s[k].stars;
      }
      ConsSorted(x, s);
    } else {
      var tail := Insert(x, s[1..]);
      InsertSorted(x, s[1..]);
      InsertPermutes(x, s[1..]);
      forall y | y in tail ensures y.stars <= s[0].stars {
        assert y in multiset(tail);
        if y != x {
          assert y in multiset(s[1..]);
          var k :| 0 <= k < |s[1..]| && s[1..][k] == y;
          assert s[k + 1] == y;
        }
      }
      ConsSorted(s[0], tail);
    }
  }

  /** `.sort((a, b) => b.stars - a.stars)`, as a stable insertion sort. */
  function SortByStars(s: seq<Repo>): (r: seq<Repo>)
    ensures |r| == |s|
  {
    if s == [] then [] else Insert(s[0], SortByStars(s[1..]))
  }

  /** Sorting is a permutation: the same repositories, each as often as before. */
  lemma {:induction false} SortPermutes(s: seq<Repo>)
    ensures multiset(SortByStars(s)) == multiset(s)
  {
    if s != [] {
      assert s == [s[0]] + s[1..];
      SortPermutes(s[1..]);
      InsertPermutes(s[0], SortByStars(s[1..]));
    }
  }

  /** Sorting puts the most stars first. */
  lemma {:induction false} SortSorted(s: seq<Repo>)
    ensures SortedByStars(SortByStars(s))
  {
    if s != [] {
      SortSorted(s[1..]);
      InsertSorted(s[0], SortByStars(s[1..]));
    }
  }

  /** The derived project list: the first `MaxProjects` of the eligible repositories sorted by stars. */
  function ProjectList(all: seq<Repo>): seq<Repo> {
    var sorted := SortByStars(FilterEligible(all));
    sorted[..Min(MaxProjects, |sorted|)]
  }

  /**
   * The project list holds at most six repositories, all of them public,
   * non-fork repositories of the input, most stars first.
   */
  lemma {:induction false} ProjectListFilters(all: seq<Repo>)
    ensures |ProjectList(all)| <= MaxProjects
    ensures forall x | x in ProjectList(all) :: Eligible(x) && x in all
    ensures SortedByStars(ProjectList(all))
  {
    var eligible := FilterEligible(all);
    var sorted := SortByStars(eligible);
    var r := ProjectList(all);
    SortPermutes(eligible);
    SortSorted(eligible);
    FilterEligibleCounts(all);
    forall x | x in r ensures Eligible(x) && x in all {
      assert x in multiset(sorted);
      assert multiset(eligible)[x] > 0;
    }
  }

  // ---------------------------------------------------------------- stability

  lemma {:induction false} WithStarsMember(s: seq<Repo>, k: int, x: Repo)
    ensures x in WithStars(s, k) <==> x in s && x.stars == k
  {
    if s != [] {
      WithStarsMember(s[1..], k, x);
      assert x in s <==> x == s[0] || x in s[1..];
    }
  }

  lemma {:induction false} WithStarsAppend(a: seq<Repo>, b: seq<Repo>, k: int)
    ensures WithStars(a + b, k) == WithStars(a, k) + WithStars(b, k)
  {
    if a == [] {
      assert a + b == b;
    } else {
      var h := if a[0].stars == k then [a[0]] else [];
      assert (a + b)[0] == a[0] && (a + b)[1..] == a[1..] + b;
      assert WithStars(a + b, k) == h + WithStars(a[1..] + b, k);
      WithStarsAppend(a[1..], b, k);
      assert WithStars(a, k) == h + WithStars(a[1..], k);
    }
  }

  lemma WithStarsCons(y: Repo, t: seq<Repo>, k: int)
    ensures WithStars([y] + t, k) == (if y.stars == k then [y] else []) + WithStars(t, k)
  {
    assert ([y] + t)[0] == y && ([y] + t)[1..] == t;
  }

  /** Insertion puts `x` in front of every entry with the same star count. */
  lemma {:induction false} WithStarsInsert(x: Repo, s: seq<Repo>, k: int)
    ensures WithStars(Insert(x, s), k) == (if x.stars == k then [x] else []) + WithStars(s, k)
  {
    if s == [] || x.stars >= s[0].stars {
      WithStarsCons(x, s, k);
    } else {
      var r := Insert(x, s[1..]);
      WithStarsCons(s[0], r, k);
      WithStarsInsert(x, s[1..], k);
      WithStarsCons(s[0], s[1..], k);
      assert s == [s[0]] + s[1..];
      // s[0] has more stars than x, so at most one of them has k stars.
      if x.stars == k {
        assert s[0].stars != k;
      }
    }
  }

  /** `SortByStars` is stable: for every star count, the entries with that count keep their input order. */
  lemma {:induction false} SortIsStable(s: seq<Repo>, k: int)
    ensures WithStars(SortByStars(s), k) == WithStars(s, k)
  {
    if s != [] {
      SortIsStable(s[1..], k);
      WithStarsInsert(s[0], SortByStars(s[1..]), k);
    }
  }

  lemma HeadHasMostStars(s: seq<Repo>, x: Repo)
    requires SortedByStars(s) && x in s
    ensures x.stars <= s[0].stars
  {
    var i :| 0 <= i < |s| && s[i] == x;
    if i > 0 {
      assert s[0].stars >= s[i].stars;
    }
  }

  lemma SortedTail(s: seq<Repo>)
    requires SortedByStars(s) && s != []
    ensures SortedByStars(s[1..])
  {
    forall i, j | 0 <= i < j < |s| - 1 ensures s[1..][i].stars >= s[1..][j].stars {
      assert s[1..][i] == s[i + 1] && s[1..][j] == s[j + 1];
    }
  }

  /** Two lists sorted by stars that agree on the order of every star count are equal. */
  lemma {:induction false} SameStableOrder(a: seq<Repo>, b: seq<Repo>)
    requires SortedByStars(a) && SortedByStars(b)
    requires forall k :: WithStars(a, k) == WithStars(b, k)
    ensures a == b
    decreases |a|
  {
    if a != [] && b != [] {
      var m, n := a[0].stars, b[0].stars;
      assert a == [a[0]] + a[1..] && b == [b[0]] + b[1..];
      // Each head carries its list's highest star count, and each count occurs in both lists.
      WithStarsMember(b, n, b[0]);
      WithStarsMember(a, n, b[0]);
      HeadHasMostStars(a, b[0]);
      WithStarsMember(a, m, a[0]);
      WithStarsMember(b, m, a[0]);
      HeadHasMostStars(b, a[0]);
      assert m == n;
      forall k ensures WithStars(a[1..], k) == WithStars(b[1..], k) {
        WithStarsCons(a[0], a[1..], k);
        WithStarsCons(b[0], b[1..], k);
        var wa, wb := WithStars(a[1..], k), WithStars(b[1..], k);
        assert WithStars(a, k) == WithStars(b, k);
        if k == m {
          assert WithStars(a, k) == [a[0]] + wa && WithStars(b, k) == [b[0]] + wb;
          assert ([a[0]] + wa)[1..] == wa && ([b[0]] + wb)[1..] == wb;
        } else {
          assert WithStars(a, k) == [] + wa && WithStars(b, k) == [] + wb;
          assert [] + wa == wa && [] + wb == wb;
        }
      }
      assert a[0] == b[0] by {
        WithStarsCons(a[0], a[1..], m);
        WithStarsCons(b[0], b[1..], m);
        assert WithStars(a, m)[0] == a[0] && WithStars(b, m)[0] == b[0];
      }
      SortedTail(a);
      SortedTail(b);
      SameStableOrder(a[1..], b[1..]);
    } else if a != [] {
      WithStarsMember(a, a[0].stars, a[0]);
    } else if b != [] {
      WithStarsMember(b, b[0].stars, b[0]);
    }
  }

  /**
   * Any list that is sorted by stars and keeps the input order among equal
   * star counts is exactly `SortByStars(s)`: whichever stable sort a
   * JavaScript engine uses, it returns this list.
   */
  lemma {:induction false} StableSortIsUnique(s: seq<Repo>, r: seq<Repo>)
    requires SortedByStars(r)
    requires forall k :: WithStars(r, k) == WithStars(s, k)
    ensures r == SortByStars(s)
  {
    forall k ensures WithStars(r, k) == WithStars(SortByStars(s), k) {
      SortIsStable(s, k);
    }
    SortSorted(s);
    SameStableOrder(r, SortByStars(s));
  }

  // ---------------------------------------------------------------- the top six

  /**
   * The project list keeps as many eligible repositories as fit, and no
   * eligible repository left out has more stars than any repository kept.
   */
  lemma {:induction false} ProjectListIsTopN(all: seq<Repo>)
    ensures |ProjectList(all)| == Min(MaxProjects, |FilterEligible(all)|)
    ensures |FilterEligible(all)| <= MaxProjects ==> multiset(ProjectList(all)) == multiset(FilterEligible(all))
    ensures forall x, y | x in FilterEligible(all) && x !in ProjectList(all) && y in ProjectList(all) :: x.stars <= y.stars
  {
    var sorted := SortByStars(FilterEligible(all));
    var r := ProjectList(all);
    SortPermutes(FilterEligible(all));
    SortSorted(FilterEligible(all));
    assert r == sorted[..|r|];
    if |sorted| <= MaxProjects {
      assert r == sorted;
    }
    forall x, y | x in FilterEligible(all) && x !in r && y in r ensures x.stars <= y.stars {
      assert x in multiset(sorted);
      OmittedHasNoMoreStars(sorted, |r|, x, y);
    }
  }

  /** In a list sorted by stars, an entry missing from a prefix has no more stars than any entry of that prefix. */
  lemma {:induction false} OmittedHasNoMoreStars(sorted: seq<Repo>, n: nat, x: Repo, y: Repo)
    requires SortedByStars(sorted) && n <= |sorted|
    requires x in sorted && x !in sorted[..n] && y in sorted[..n]
    ensures x.stars <= y.stars
  {
    var i :| 0 <= i < |sorted| && sorted[i] == x;
    var j :| 0 <= j < n && sorted[..n][j] == y;
    assert sorted[j] == y;
  }

  /**
   * Among repositories with equal star counts, the project list shows the
   * earliest eligible ones of the API's list, in that order.
   */
  lemma {:induction false} ProjectListIsStable(all: seq<Repo>, k: int)
    ensures WithStars(ProjectList(all), k) <= WithStars(FilterEligible(all), k)
  {
    var sorted := SortByStars(FilterEligible(all));
    var n := |ProjectList(all)|;
    assert sorted == sorted[..n] + sorted[n..];
    WithStarsAppend(sorted[..n], sorted[n..], k);
    SortIsStable(FilterEligible(all), k);
  }

  lemma SortCons(x: Repo, s: seq<Repo>)
    ensures SortByStars([x] + s) == Insert(x, SortByStars(s))
  {
    assert ([x] + s)[1..] == s;
  }

  lemma InsertHere(x: Repo, s: seq<Repo>)
    requires s == [] || x.stars >= s[0].stars
    ensures Insert(x, s) == [x] + s
  {
  }

  lemma InsertPast(x: Repo, y: Repo, s: seq<Repo>)
    requires x.stars < y.stars
    ensures Insert(x, [y] + s) == [y] + Insert(x, s)
  {
    assert ([y] + s)[1..] == s;
  }

  lemma FilterCons(x: Repo, s: seq<Repo>)
    ensures FilterEligible([x] + s) == (if Eligible(x) then [x] else []) + FilterEligible(s)
  {
    assert ([x] + s)[1..] == s;
  }

  /** An example: stars 3, 10, 1, 10, 0 with a private and a fork repository among them. */
  lemma ProjectListExample(a: Repo, p: Repo, b: Repo, c: Repo, f: Repo, d: Repo, e: Repo)
    requires Eligible(a) && Eligible(b) && Eligible(c) && Eligible(d) && Eligible(e)
    requires p.isPrivate && f.isFork
    requires a.stars == 3 && b.stars == 10 && c.stars == 1 && d.stars == 10 && e.stars == 0
    ensures ProjectList([a, p, b, c, f, d, e]) == [b, d, a, c, e]
  {
    ExampleFilter(a, p, b, c, f, d, e);
    ExampleSort(a, b, c, d, e);
  }

  lemma ExampleFilter(a: Repo, p: Repo, b: Repo, c: Repo, f: Repo, d: Repo, e: Repo)
    requires Eligible(a) && Eligible(b) && Eligible(c) && Eligible(d) && Eligible(e)
    requires p.isPrivate && f.isFork
    ensures FilterEligible([a, p, b, c, f, d, e]) == [a, b, c, d, e]
  {
    FilterCons(e, []);
    FilterCons(d, [e]);
    FilterCons(f, [d, e]);
    FilterCons(c, [f, d, e]);
    FilterCons(b, [c, f, d, e]);
    FilterCons(p, [b, c, f, d, e]);
    FilterCons(a, [p, b, c, f, d, e]);
    assert [a, p, b, c, f, d, e] == [a] + [p, b, c, f, d, e];
  }

  lemma ExampleSort(a: Repo, b: Repo, c: Repo, d: Repo, e: Repo)
    requires a.stars == 3 && b.stars == 10 && c.stars == 1 && d.stars == 10 && e.stars == 0
    ensures SortByStars([a, b, c, d, e]) == [b, d, a, c, e]
  {
    SortCons(e, []);
    InsertHere(e, []);
    assert [e] == [e] + [];
    assert SortByStars([e]) == [e];
    SortCons(d, [e]);
    InsertHere(d, [e]);
    assert SortByStars([d, e]) == [d, e];
    SortCons(c, [d, e]);
    InsertPast(c, d, [e]);
    InsertHere(c, [e]);
    assert SortByStars([c, d, e]) == [d, c, e];
    SortCons(b, [c, d, e]);
    InsertHere(b, [d, c, e]);
    assert SortByStars([b, c, d, e]) == [b, d, c, e];
    SortCons(a, [b, c, d, e]);
    InsertPast(a, b, [d, c, e]);
    InsertPast(a, d, [c, e]);
    InsertHere(a, [c, e]);
    assert [a, b, c, d, e] == [a] + [b, c, d, e];
  }

  // ---------------------------------------------------------------- cards

  /** One child of the projects grid. */
  datatype Card =
    | NoProjects(message: string)
    | ProjectCard(title: string, stars: int, starsLabel: string, description: string, url: string, linkLabel: string)

  /** The description shown for a repository without one; it is the same in both languages. */
  const NoDescription := "No description available."

  /** The card of one repository. */
  function CardOf(r: Repo, t: Labels): Card
  {
    ProjectCard(r.name, r.stars, t.stars,
      if Truthy(r.description) then r.description.value else NoDescription,
      r.htmlUrl, t.viewProject)
  }

  /** The cards of `repos`, one per repository, in order. */
  function CardsOf(repos: seq<Repo>, t: Labels): (cards: seq<Card>)
    ensures |cards| == |repos|
  {
    if repos == [] then [] else CardsOf(repos[..|repos| - 1], t) + [CardOf(repos[|repos| - 1], t)]
  }

  /** One more repository adds its card at the end. */
  lemma CardsOfSnoc(repos: seq<Repo>, i: nat, t: Labels)
    requires i < |repos|
    ensures CardsOf(repos[..i + 1], t) == CardsOf(repos[..i], t) + [CardOf(repos[i], t)]
  {
    assert repos[..i + 1][..i] == repos[..i];
  }

  /** The projects grid: the empty-state message alone, or one card per repository. */
  function ProjectGrid(repos: seq<Repo>, t: Labels): seq<Card>
  {
    if |repos| == 0 then [NoProjects(t.noProjects)] else CardsOf(repos, t)
  }

  /**
   * The grid is never empty; for a non-empty list it holds one card per
   * repository in list order, each naming its repository, linking to it and
   * showing a non-empty description.
   */
  lemma {:induction false} ProjectGridShape(repos: seq<Repo>, t: Labels)
    ensures |ProjectGrid(repos, t)| == if repos == [] then 1 else |repos|
    ensures repos == [] ==> ProjectGrid(repos, t)[0] == NoProjects(t.noProjects)
    ensures forall i | 0 <= i < |repos| ::
      && ProjectGrid(repos, t)[i].ProjectCard?
      && ProjectGrid(repos, t)[i].title == repos[i].name
      && ProjectGrid(repos, t)[i].stars == repos[i].stars
      && ProjectGrid(repos, t)[i].url == repos[i].htmlUrl
      && ProjectGrid(repos, t)[i].description != ""
  {
    if repos != [] {
      CardsOfAt(repos, t);
    }
  }

  lemma {:induction false} CardsOfAt(repos: seq<Repo>, t: Labels)
    ensures forall i | 0 <= i < |repos| :: CardsOf(repos, t)[i] == CardOf(repos[i], t)
  {
    if repos != [] {
      var init := repos[..|repos| - 1];
      CardsOfAt(init, t);
      assert forall i | 0 <= i < |init| :: init[i] == repos[i];
    }
  }
}

/**
 * The data-shaping part of `VisualizationViews` in views.js: which
 * organisations a view shows, the category hierarchy fed to the treemap and
 * bubble layouts, the two top-10 ranking tables and the ordered evaluation
 * cards. The D3 layouts and the DOM they draw are not modelled.
 */
module Views {
  import opened Common
  import opened Rules

  // ---------------------------------------------------------------------
  // getFilteredData
  // ---------------------------------------------------------------------

  function IdIn(ids: seq<string>): Organization -> bool {
    (o: Organization) => o.id in ids
  }

  /**
   * `getFilteredData()`: with the 'financial' filter, the organisations
   * whose id is listed in `financialIds` (None when the global list is not
   * defined, which `|| []` turns into the empty list); otherwise all data.
   */
  function FilteredData(data: seq<Organization>, filter: string, financialIds: Option<seq<string>>): (r: seq<Organization>)
    ensures filter != "financial" ==> r == data
    ensures |r| <= |data|
  {
    if filter == "financial" then
      var ids := if financialIds.Some? then financialIds.value else [];
      Filter(data, IdIn(ids))
    else data
  }

  /** The financial view keeps exactly the listed organisations, each as often as it occurs in the data. */
  lemma FinancialMembers(data: seq<Organization>, ids: seq<string>)
    ensures forall o :: o in FilteredData(data, "financial", Some(ids)) <==> o in data && o.id in ids
    ensures forall o :: multiset(FilteredData(data, "financial", Some(ids)))[o] ==
                        if o.id in ids then multiset(data)[o] else 0
  {
    forall o ensures o in Filter(data, IdIn(ids)) <==> o in data && o.id in ids {
      FilterIn(data, IdIn(ids), o);
    }
    forall o ensures multiset(Filter(data, IdIn(ids)))[o] == if o.id in ids then multiset(data)[o] else 0 {
      FilterCount(data, IdIn(ids), o);
    }
  }

  /** The financial view keeps the original order: filtering two halves and joining them is filtering the whole. */
  lemma FinancialOrder(a: seq<Organization>, b: seq<Organization>, ids: Option<seq<string>>)
    ensures FilteredData(a + b, "financial", ids) == FilteredData(a, "financial", ids) + FilteredData(b, "financial", ids)
  {
    FilterAppend(a, b, IdIn(if ids.Some? then ids.value else []));
  }

  /** Without a list of financial institutions the financial view is empty. */
  lemma MissingListShowsNothing(data: seq<Organization>)
    ensures FilteredData(data, "financial", None) == []
  {
    var r := FilteredData(data, "financial", None);
    if r != [] {
      FilterIn(data, IdIn([]), r[0]);
      assert false;
    }
  }

  // ---------------------------------------------------------------------
  // Treemap and bubble-chart hierarchy
  // ---------------------------------------------------------------------

  /** A leaf `{ name: org.id, value, data: org }`. */
  datatype Leaf = Leaf(name: string, value: int, org: Organization)

  /** A category group `{ name: cat.id, children }`. */
  datatype Group = Group(name: string, children: seq<Leaf>)

  function Assets(): Organization -> int { (o: Organization) => o.assets }
  function Employees(): Organization -> int { (o: Organization) => o.employees }

  function InCategory(cat: string): Organization -> bool {
    (o: Organization) => o.category == cat
  }

  function LeafOf(o: Organization, size: Organization -> int): Leaf {
    Leaf(o.id, size(o), o)
  }

  /** `.map(org => ({ name: org.id, value: size(org), data: org }))`. */
  function Leaves(orgs: seq<Organization>, size: Organization -> int): (ls: seq<Leaf>)
    ensures |ls| == |orgs|
  {
    if orgs == [] then []
    else Leaves(orgs[..|orgs| - 1], size) + [LeafOf(orgs[|orgs| - 1], size)]
  }

  lemma {:induction false} LeavesAt(orgs: seq<Organization>, size: Organization -> int, k: nat)
    requires k < |orgs|
    ensures Leaves(orgs, size)[k] == LeafOf(orgs[k], size)
  {
    var n := |orgs| - 1;
    if k < n {
      LeavesAt(orgs[..n], size, k);
    }
  }

  /** The group of one category: its organisations, in data order. */
  function GroupOf(data: seq<Organization>, cat: string, size: Organization -> int): Group {
    Group(cat, Leaves(Filter(data, InCategory(cat)), size))
  }

  /** `categories.map(cat => group).filter(cat => cat.children.length > 0)`. */
  function Hierarchy(data: seq<Organization>, cats: seq<string>, size: Organization -> int): (gs: seq<Group>)
    ensures |gs| <= |cats|
  {
    if cats == [] then []
    else
      var g := GroupOf(data, cats[|cats| - 1], size);
      Hierarchy(data, cats[..|cats| - 1], size) + (if |g.children| > 0 then [g] else [])
  }

  /** The treemap sizes each organisation by its assets. */
  function TreemapHierarchy(data: seq<Organization>): seq<Group> {
    Hierarchy(data, CategoryIds, Assets())
  }

  /** The bubble chart sizes each organisation by its head count. */
  function BubbleHierarchy(data: seq<Organization>): seq<Group> {
    Hierarchy(data, CategoryIds, Employees())
  }

  function GroupNames(gs: seq<Group>): (ns: seq<string>)
    ensures |ns| == |gs|
  {
    if gs == [] then [] else GroupNames(gs[..|gs| - 1]) + [gs[|gs| - 1].name]
  }

  /** A category has a group exactly when some organisation belongs to it. */
  predicate Populated(data: seq<Organization>, cat: string) {
    exists o :: o in data && o.category == cat
  }

  function PopulatedIn(data: seq<Organization>): string -> bool {
    cat => Populated(data, cat)
  }

  lemma PopulatedGroup(data: seq<Organization>, cat: string, size: Organization -> int)
    ensures |GroupOf(data, cat, size).children| > 0 <==> Populated(data, cat)
  {
    var members := Filter(data, InCategory(cat));
    if Populated(data, cat) {
      var o :| o in data && o.category == cat;
      FilterIn(data, InCategory(cat), o);
    } else if members != [] {
      FilterIn(data, InCategory(cat), members[0]);
    }
  }

  /** The groups are the populated categories, in category-list order, and none is empty. */
  lemma {:induction false} HierarchyNames(data: seq<Organization>, cats: seq<string>, size: Organization -> int)
    ensures GroupNames(Hierarchy(data, cats, size)) == Filter(cats, PopulatedIn(data))
    ensures forall g :: g in Hierarchy(data, cats, size) ==> |g.children| > 0
  {
    if cats != [] {
      var n := |cats| - 1;
      var prev := Hierarchy(data, cats[..n], size);
      var g := GroupOf(data, cats[n], size);
      HierarchyNames(data, cats[..n], size);
      PopulatedGroup(data, cats[n], size);
      if |g.children| > 0 {
        assert (prev + [g])[..|prev|] == prev;
      } else {
        assert prev + [] == prev;
      }
    }
  }

  /**
   * Each group holds exactly the organisations of its category, in data
   * order, each as a leaf sized by `size`: an organisation appears only
   * under the group named by its own category.
   */
  lemma {:induction false} HierarchyGroups(data: seq<Organization>, cats: seq<string>, size: Organization -> int)
    ensures forall g :: g in Hierarchy(data, cats, size) ==> g.name in cats && g == GroupOf(data, g.name, size)
  {
    if cats != [] {
      var n := |cats| - 1;
      HierarchyGroups(data, cats[..n], size);
      forall g | g in Hierarchy(data, cats[..n], size) ensures g.name in cats {
        var k :| 0 <= k < n && cats[..n][k] == g.name;
        assert cats[k] == g.name;
      }
    }
  }

  /**
   * The treemap groups the populated categories in category-list order and
   * sizes leaves by assets; the bubble chart has the same groups, sized by
   * head count.
   */
  lemma ChartHierarchies(data: seq<Organization>)
    ensures GroupNames(TreemapHierarchy(data)) == Filter(CategoryIds, PopulatedIn(data))
    ensures forall g :: g in TreemapHierarchy(data) ==> |g.children| > 0 && g == GroupOf(data, g.name, Assets())
    ensures GroupNames(BubbleHierarchy(data)) == Filter(CategoryIds, PopulatedIn(data))
    ensures forall g :: g in BubbleHierarchy(data) ==> |g.children| > 0 && g == GroupOf(data, g.name, Employees())
  {
    HierarchyNames(data, CategoryIds, Assets());
    HierarchyGroups(data, CategoryIds, Assets());
    HierarchyNames(data, CategoryIds, Employees());
    HierarchyGroups(data, CategoryIds, Employees());
  }

  /** Every leaf under a group is an organisation of that group's category, with the requested size. */
  lemma LeavesOfGroup(data: seq<Organization>, cat: string, size: Organization -> int)
    ensures forall l :: l in GroupOf(data, cat, size).children ==>
              l.org in data && l.org.category == cat && l.name == l.org.id && l.value == size(l.org)
  {
    var members := Filter(data, InCategory(cat));
    forall l | l in Leaves(members, size)
      ensures l.org in data && l.org.category == cat && l.name == l.org.id && l.value == size(l.org)
    {
      var k :| 0 <= k < |members| && Leaves(members, size)[k] == l;
      LeavesAt(members, size, k);
      assert members[k] in members;
      FilterIn(data, InCategory(cat), members[k]);
    }
  }

  /** Conversely, every organisation of a listed category has its leaf in that category's group. */
  lemma OrganizationPlaced(data: seq<Organization>, cats: seq<string>, size: Organization -> int, o: Organization)
    requires o in data && o.category in cats
    ensures exists g :: g in Hierarchy(data, cats, size) && g.name == o.category && LeafOf(o, size) in g.children
  {
    var members := Filter(data, InCategory(o.category));
    FilterIn(data, InCategory(o.category), o);
    var k :| 0 <= k < |members| && members[k] == o;
    LeavesAt(members, size, k);
    var g := GroupOf(data, o.category, size);
    assert LeafOf(o, size) in g.children;
    PlacedInHierarchy(data, cats, size, o.category);
  }

  lemma {:induction false} PlacedInHierarchy(data: seq<Organization>, cats: seq<string>, size: Organization -> int, cat: string)
    requires cat in cats && |GroupOf(data, cat, size).children| > 0
    ensures GroupOf(data, cat, size) in Hierarchy(data, cats, size)
  {
    var n := |cats| - 1;
    if cats[n] != cat {
      assert cat in cats[..n] by {
        var k :| 0 <= k < |cats| && cats[k] == cat;
        assert cats[..n][k] == cat;
      }
      PlacedInHierarchy(data, cats[..n], size, cat);
    }
  }

  // ---------------------------------------------------------------------
  // Rankings
  // ---------------------------------------------------------------------

  /** `[...data].sort((a, b) => b.assets - a.assets).slice(0, 10)`. */
  function AssetsRanking(data: seq<Organization>): seq<Organization> {
    TopN(data, Assets(), 10)
  }

  /** `[...data].sort((a, b) => b.employees - a.employees).slice(0, 10)`. */
  function EmployeesRanking(data: seq<Organization>): seq<Organization> {
    TopN(data, Employees(), 10)
  }

  /**
   * A ranking holds min(n, 10) organisations drawn from the data, largest
   * first, and no organisation left out is larger than one shown; equal
   * values keep their data order.
   */
  lemma RankingSpec(data: seq<Organization>, size: Organization -> int)
    ensures |TopN(data, size, 10)| == if |data| < 10 then |data| else 10
    ensures SortedDesc(TopN(data, size, 10), size)
    ensures multiset(TopN(data, size, 10)) <= multiset(data)
    ensures forall x, y :: x in TopN(data, size, 10) && y in data && y !in TopN(data, size, 10) ==> size(x) >= size(y)
    ensures forall k :: Filter(SortDesc(data, size), KeyIs(size, k)) == Filter(data, KeyIs(size, k))
  {
    TopNSpec(data, size, 10);
    forall k ensures Filter(SortDesc(data, size), KeyIs(size, k)) == Filter(data, KeyIs(size, k)) {
      SortDescStable(data, size, k);
    }
  }

  /** `'badge-high'` for the highest investment level, `'badge-medium'` for anything else. */
  function InvestmentBadge(investment: string): (badge: string)
    ensures badge == "badge-high" <==> investment == "極めて高い"
    ensures badge == "badge-high" || badge == "badge-medium"
  {
    if investment == "極めて高い" then "badge-high" else "badge-medium"
  }

  /** `d.category.substring(0, 6)`. */
  function Abbreviate(s: string, n: nat): (r: string)
    ensures |r| == if |s| < n then |s| else n
    ensures r <= s
  {
    if |s| <= n then s else s[..n]
  }

  /** One table row: position, id, shortened category, the ranked value and the investment badge. */
  datatype RankingRow = RankingRow(position: nat, id: string, category: string, value: int, badge: string)

  function RowOf(o: Organization, index: nat, size: Organization -> int): RankingRow {
    RankingRow(index + 1, o.id, Abbreviate(o.category, 6), size(o), InvestmentBadge(o.investment))
  }

  /** `createRankingTable`: one row per ranked organisation, numbered from 1. */
  function RankingRows(ranked: seq<Organization>, size: Organization -> int): (rows: seq<RankingRow>)
    ensures |rows| == |ranked|
  {
    if ranked == [] then []
    else RankingRows(ranked[..|ranked| - 1], size) + [RowOf(ranked[|ranked| - 1], |ranked| - 1, size)]
  }

  /** Row `i` (from 0) shows organisation `o`: position i + 1, its id, its value, and the high badge exactly for "極めて高い". */
  predicate RowShows(row: RankingRow, o: Organization, i: nat, size: Organization -> int) {
    row.position == i + 1 && row.id == o.id && row.value == size(o) &&
    (row.badge == "badge-high" <==> o.investment == "極めて高い")
  }

  /** The rows are numbered 1..n consecutively and each shows its organisation's data. */
  lemma {:induction false} RankingRowsSpec(ranked: seq<Organization>, size: Organization -> int)
    ensures forall i :: 0 <= i < |ranked| ==> RowShows(RankingRows(ranked, size)[i], ranked[i], i, size)
  {
    if ranked != [] {
      var n := |ranked| - 1;
      var rows, prev := RankingRows(ranked, size), RankingRows(ranked[..n], size);
      RankingRowsSpec(ranked[..n], size);
      assert rows == prev + [RowOf(ranked[n], n, size)];
      forall i | 0 <= i < |ranked| ensures RowShows(rows[i], ranked[i], i, size) {
        if i < n {
          assert rows[i] == prev[i];
          assert ranked[..n][i] == ranked[i];
        }
      }
    }
  }

  /** Both ranking tables of `renderRanking`, together with the properties above. */
  lemma RenderedRankings(data: seq<Organization>)
    ensures |RankingRows(AssetsRanking(data), Assets())| <= 10
    ensures |RankingRows(EmployeesRanking(data), Employees())| <= 10
    ensures SortedDesc(AssetsRanking(data), Assets()) && SortedDesc(EmployeesRanking(data), Employees())
    ensures forall i :: 0 <= i < |RankingRows(AssetsRanking(data), Assets())| ==>
              RankingRows(AssetsRanking(data), Assets())[i].position == i + 1
    ensures forall i :: 0 <= i < |RankingRows(EmployeesRanking(data), Employees())| ==>
              RankingRows(EmployeesRanking(data), Employees())[i].position == i + 1
  {
    RankingSpec(data, Assets());
    RankingSpec(data, Employees());
    RankingRowsSpec(AssetsRanking(data), Assets());
    RankingRowsSpec(EmployeesRanking(data), Employees());
  }

  // ---------------------------------------------------------------------
  // Five-axis evaluation cards
  // ---------------------------------------------------------------------

  /** `{ ...org, scores, evalRank }`. */
  datatype Card = Card(org: Organization, scores: Scores, evalRank: RankInfo)

  function CardOf(o: Organization): Card {
    Card(o, EvaluationScores(o), EvaluationRank(EvaluationScores(o).total))
  }

  /** `data.map(...)`: one card per organisation, in data order. */
  function Cards(data: seq<Organization>): (cs: seq<Card>)
    ensures |cs| == |data|
  {
    Map(data, CardOf)
  }

  function TotalOf(): Card -> int { (c: Card) => c.scores.total }

  /** `scoredData`: the cards sorted by total score, highest first. */
  function EvaluationCards(data: seq<Organization>): seq<Card> {
    SortDesc(Cards(data), TotalOf())
  }

  /**
   * One card per organisation, ordered by non-increasing total, equal
   * totals in data order; each card's scores and rank are those of its
   * organisation.
   */
  lemma EvaluationCardsSpec(data: seq<Organization>)
    ensures |EvaluationCards(data)| == |data|
    ensures multiset(EvaluationCards(data)) == multiset(Cards(data))
    ensures SortedDesc(EvaluationCards(data), TotalOf())
    ensures forall t :: Filter(EvaluationCards(data), KeyIs(TotalOf(), t)) == Filter(Cards(data), KeyIs(TotalOf(), t))
    ensures forall c :: c in EvaluationCards(data) ==>
              c.org in data && c.scores == EvaluationScores(c.org) && c.evalRank == EvaluationRank(c.scores.total)
  {
    SortDescSpec(Cards(data), TotalOf());
    forall t ensures Filter(EvaluationCards(data), KeyIs(TotalOf(), t)) == Filter(Cards(data), KeyIs(TotalOf(), t)) {
      SortDescStable(Cards(data), TotalOf(), t);
    }
    forall c | c in EvaluationCards(data)
      ensures c.org in data && c.scores == EvaluationScores(c.org) && c.evalRank == EvaluationRank(c.scores.total)
    {
      assert c in multiset(Cards(data));
      var k :| 0 <= k < |data| && Cards(data)[k] == c;
      MapAt(data, CardOf, k);
    }
  }

  /** The score-bar width in percent: `(total / 25) * 100`. */
  function ScorePercent(total: int): (pct: real)
    ensures pct * 25.0 == total as real * 100.0
  {
    (total as real / 25.0) * 100.0
  }

  /** Every card's bar is between 16% (total 4) and 100% (total 25) wide, and wider for a higher total. */
  lemma ScoreBarBounds(o: Organization)
    ensures 16.0 <= ScorePercent(EvaluationScores(o).total) <= 100.0
    ensures forall p: Organization :: EvaluationScores(p).total < EvaluationScores(o).total ==>
              ScorePercent(EvaluationScores(p).total) < ScorePercent(EvaluationScores(o).total)
  {
  }
}

/**
 * What the graph builders of script.js produce: the node and link records,
 * one specification function per builder, and the properties of the
 * resulting graphs. The class that fills `nodes` and `links` step by step
 * (module Navigator) is proved to produce exactly these sequences.
 *
 * Colours, strengths, opacities, pixel positions and the radii computed
 * from square roots and logarithms are not part of the records.
 */
module Network {
  import opened Common
  import opened Rules

  /** `currentView`. */
  datatype View = NetworkView | ScatterView | TimelineView | HeatmapView

  /** The `type` of a non-organisation node. */
  datatype HubKind = CultureHub | VendorHub | BidStyleHub | CategoryHub | InvestmentHub | AiStatusHub

  datatype Node =
    | OrgNode(id: string, category: string, year: Option<int>)   // type 'organization'
    | CellNode(id: string, orgId: string, metric: string)         // type 'heatmap-cell'
    | HubNode(id: string, kind: HubKind, radius: nat, count: Option<nat>)

  datatype Link =
    | HubLink(source: string, target: string)
    | PeerLink(source: string, target: string, width: Option<nat>)

  // ---------------------------------------------------------------------
  // Organisation nodes
  // ---------------------------------------------------------------------

  function OrgNodeOf(o: Organization): Node {
    OrgNode(o.id, o.category, None)
  }

  /** One organisation node per organisation, in order. */
  function OrgNodes(orgs: seq<Organization>): (ns: seq<Node>)
    ensures |ns| == |orgs|
  {
    if orgs == [] then [] else OrgNodes(orgs[..|orgs| - 1]) + [OrgNodeOf(orgs[|orgs| - 1])]
  }

  /** One more organisation seen by a builder's loop adds its node. */
  lemma OrgNodesStep(orgs: seq<Organization>, i: nat)
    requires i < |orgs|
    ensures OrgNodes(orgs[..i + 1]) == OrgNodes(orgs[..i]) + [OrgNodeOf(orgs[i])]
  {
    assert orgs[..i + 1][..i] == orgs[..i];
  }

  lemma {:induction false} OrgNodesAt(orgs: seq<Organization>, k: nat)
    requires k < |orgs|
    ensures OrgNodes(orgs)[k] == OrgNodeOf(orgs[k])
  {
    var n := |orgs| - 1;
    if k < n {
      OrgNodesAt(orgs[..n], k);
    }
  }

  // ---------------------------------------------------------------------
  // Timeline
  // ---------------------------------------------------------------------

  /**
   * The year a timeline node is placed at: ordered substring tests on the
   * renewal text, falling back to 2025 + (index mod 4).
   */
  function TimelineYear(renewal: string, index: nat): (year: int)
    ensures 2024 <= year <= 2028
    ensures (Contains(renewal, "2024") || Contains(renewal, "完了")) ==> year == 2024
    ensures year == 2028 ==> index % 4 == 3 && !Contains(renewal, "2028")
  {
    if Contains(renewal, "2024") || Contains(renewal, "完了") then 2024
    else if Contains(renewal, "2025") then 2025
    else if Contains(renewal, "2026") || Contains(renewal, "2027") || Contains(renewal, "2028") then 2027
    else if Contains(renewal, "進行中") || Contains(renewal, "刷新中") then 2026
    else if Contains(renewal, "R7") then 2025
    else if Contains(renewal, "R6") then 2024
    else 2025 + index % 4
  }

  function TimelineNodeOf(o: Organization, index: nat): Node {
    OrgNode(o.id, o.category, Some(TimelineYear(o.systemRenewal, index)))
  }

  function TimelineNodes(orgs: seq<Organization>): (ns: seq<Node>)
    ensures |ns| == |orgs|
  {
    if orgs == [] then []
    else TimelineNodes(orgs[..|orgs| - 1]) + [TimelineNodeOf(orgs[|orgs| - 1], |orgs| - 1)]
  }

  /** The k-th timeline node is the k-th organisation, placed in a year between 2024 and 2028. */
  lemma {:induction false} TimelineNodesAt(orgs: seq<Organization>, k: nat)
    requires k < |orgs|
    ensures TimelineNodes(orgs)[k] == OrgNode(orgs[k].id, orgs[k].category, Some(TimelineYear(orgs[k].systemRenewal, k)))
    ensures 2024 <= TimelineNodes(orgs)[k].year.value <= 2028
  {
    var n := |orgs| - 1;
    if k < n {
      TimelineNodesAt(orgs[..n], k);
    }
  }

  // ---------------------------------------------------------------------
  // Heatmap
  // ---------------------------------------------------------------------

  const HeatmapMetrics: seq<string> := ["職員数", "年収", "総資産", "経常利益", "平均年齢"]

  /** The cell for one organisation and one metric, with id `${org.id}-${metric}`. */
  function CellOf(o: Organization, metric: string): Node {
    CellNode(o.id + "-" + metric, o.id, metric)
  }

  function CellsFor(o: Organization, metrics: seq<string>): (ns: seq<Node>)
    ensures |ns| == |metrics|
  {
    if metrics == [] then []
    else CellsFor(o, metrics[..|metrics| - 1]) + [CellOf(o, metrics[|metrics| - 1])]
  }

  function HeatmapCells(orgs: seq<Organization>): (ns: seq<Node>)
    ensures |ns| == |HeatmapMetrics| * |orgs|
  {
    if orgs == [] then []
    else HeatmapCells(orgs[..|orgs| - 1]) + CellsFor(orgs[|orgs| - 1], HeatmapMetrics)
  }

  lemma {:induction false} CellsForAt(o: Organization, metrics: seq<string>, j: nat)
    requires j < |metrics|
    ensures CellsFor(o, metrics)[j] == CellOf(o, metrics[j])
  {
    var n := |metrics| - 1;
    if j < n {
      CellsForAt(o, metrics[..n], j);
    }
  }

  /** Five cells per organisation, row by row: cell k belongs to organisation k / 5 and metric k % 5. */
  lemma {:induction false} HeatmapCellAt(orgs: seq<Organization>, k: nat)
    requires k < |HeatmapMetrics| * |orgs|
    ensures HeatmapCells(orgs)[k] == CellOf(orgs[k / 5], HeatmapMetrics[k % 5])
  {
    var n := |orgs| - 1;
    if k < 5 * n {
      HeatmapCellAt(orgs[..n], k);
    } else {
      CellsForAt(orgs[n], HeatmapMetrics, k - 5 * n);
      assert k / 5 == n && k % 5 == k - 5 * n;
    }
  }

  // ---------------------------------------------------------------------
  // Hubs looked up by a label of the organisation
  // ---------------------------------------------------------------------

  /** One hub node per id, in order, all of one kind and radius. */
  function HubNodes(ids: seq<string>, kind: HubKind, radius: nat): (ns: seq<Node>)
    ensures |ns| == |ids|
  {
    if ids == [] then []
    else HubNodes(ids[..|ids| - 1], kind, radius) + [HubNode(ids[|ids| - 1], kind, radius, None)]
  }

  /** The link from the hub named by the organisation's label, when that hub exists (`find` succeeds). */
  function LabelLink(o: Organization, labels: seq<string>, labelOf: Organization -> string): seq<Link> {
    if labelOf(o) in labels then [HubLink(labelOf(o), o.id)] else []
  }

  function LabelLinks(orgs: seq<Organization>, labels: seq<string>, labelOf: Organization -> string): (ls: seq<Link>)
    ensures |ls| <= |orgs|
  {
    if orgs == [] then []
    else LabelLinks(orgs[..|orgs| - 1], labels, labelOf) + LabelLink(orgs[|orgs| - 1], labels, labelOf)
  }

  lemma LabelLinksStep(orgs: seq<Organization>, i: nat, labels: seq<string>, labelOf: Organization -> string)
    requires i < |orgs|
    ensures LabelLinks(orgs[..i + 1], labels, labelOf) == LabelLinks(orgs[..i], labels, labelOf) + LabelLink(orgs[i], labels, labelOf)
  {
    assert orgs[..i + 1][..i] == orgs[..i];
  }

  /** A label link exists only when the hub lookup succeeds, and always points from that hub to an organisation. */
  lemma {:induction false} LabelLinksFromHubs(orgs: seq<Organization>, labels: seq<string>, labelOf: Organization -> string)
    ensures forall l :: l in LabelLinks(orgs, labels, labelOf) ==>
              l.HubLink? && l.source in labels && exists k :: 0 <= k < |orgs| && l == HubLink(labelOf(orgs[k]), orgs[k].id)
  {
    if orgs != [] {
      var n := |orgs| - 1;
      LabelLinksFromHubs(orgs[..n], labels, labelOf);
      forall l | l in LabelLinks(orgs, labels, labelOf)
        ensures l.HubLink? && l.source in labels && exists k :: 0 <= k < |orgs| && l == HubLink(labelOf(orgs[k]), orgs[k].id)
      {
        if l in LabelLinks(orgs[..n], labels, labelOf) {
          var k :| 0 <= k < |orgs[..n]| && l == HubLink(labelOf(orgs[..n][k]), orgs[..n][k].id);
          assert orgs[..n][k] == orgs[k];
        } else {
          assert l == HubLink(labelOf(orgs[n]), orgs[n].id);
        }
      }
    }
  }

  /** When every label names a hub, every organisation gets exactly its own hub link, in order. */
  lemma {:induction false} LabelLinksTotal(orgs: seq<Organization>, labels: seq<string>, labelOf: Organization -> string)
    requires forall k :: 0 <= k < |orgs| ==> labelOf(orgs[k]) in labels
    ensures |LabelLinks(orgs, labels, labelOf)| == |orgs|
    ensures forall k :: 0 <= k < |orgs| ==> LabelLinks(orgs, labels, labelOf)[k] == HubLink(labelOf(orgs[k]), orgs[k].id)
  {
    if orgs != [] {
      var n := |orgs| - 1;
      LabelLinksTotal(orgs[..n], labels, labelOf);
    }
  }

  function CultureOf(): Organization -> string { (o: Organization) => ClassifyCulture(o.culture) }
  function BidStyleOf(): Organization -> string { (o: Organization) => NormalizeBidStyle(o.bidStyle) }
  function CategoryOf(): Organization -> string { (o: Organization) => o.category }
  function InvestmentOf(): Organization -> string { (o: Organization) => o.investment }
  function AiOf(): Organization -> string { (o: Organization) => o.ai }

  /** In the bid-style network every organisation is linked to the hub of its normalised style. */
  lemma BidStyleLinksTotal(orgs: seq<Organization>)
    ensures |LabelLinks(orgs, BidStyleIds, BidStyleOf())| == |orgs|
    ensures forall k :: 0 <= k < |orgs| ==>
              LabelLinks(orgs, BidStyleIds, BidStyleOf())[k] == HubLink(NormalizeBidStyle(orgs[k].bidStyle), orgs[k].id)
  {
    LabelLinksTotal(orgs, BidStyleIds, BidStyleOf());
  }

  // ---------------------------------------------------------------------
  // Vendors
  // ---------------------------------------------------------------------

  /** Every vendor entry of every organisation, in order, repetitions kept. */
  function AllVendors(orgs: seq<Organization>): seq<string> {
    if orgs == [] then [] else AllVendors(orgs[..|orgs| - 1]) + orgs[|orgs| - 1].vendors
  }

  function InList(l: seq<string>): string -> bool {
    v => v in l
  }

  /** The `activeVendors` set of buildAllNetwork/buildVendorNetwork, in insertion order. */
  function ActiveVendors(orgs: seq<Organization>, majors: seq<string>): seq<string> {
    Distinct(Filter(AllVendors(orgs), InList(majors)))
  }

  /** The active vendors are the listed vendors some organisation uses, each once. */
  lemma ActiveVendorsSpec(orgs: seq<Organization>, majors: seq<string>)
    ensures forall v :: v in ActiveVendors(orgs, majors) <==> v in AllVendors(orgs) && v in majors
    ensures NoDuplicates(ActiveVendors(orgs, majors))
  {
    var f := Filter(AllVendors(orgs), InList(majors));
    DistinctSpec(f);
    forall v ensures v in f <==> v in AllVendors(orgs) && v in majors {
      FilterIn(AllVendors(orgs), InList(majors), v);
    }
  }

  /** The links from vendor hubs to one organisation, for the vendors that pass `hub`. */
  function VendorLinksOf(vendors: seq<string>, target: string, hub: string -> bool): seq<Link> {
    if vendors == [] then []
    else
      var v := vendors[|vendors| - 1];
      VendorLinksOf(vendors[..|vendors| - 1], target, hub) + (if hub(v) then [HubLink(v, target)] else [])
  }

  function VendorLinks(orgs: seq<Organization>, hub: string -> bool): seq<Link> {
    if orgs == [] then []
    else VendorLinks(orgs[..|orgs| - 1], hub) + VendorLinksOf(orgs[|orgs| - 1].vendors, orgs[|orgs| - 1].id, hub)
  }

  lemma {:induction false} VendorLinksOfSpec(vendors: seq<string>, target: string, hub: string -> bool)
    ensures forall l :: l in VendorLinksOf(vendors, target, hub) ==>
              l.HubLink? && l.source in vendors && hub(l.source) && l.target == target
  {
    if vendors != [] {
      var n := |vendors| - 1;
      VendorLinksOfSpec(vendors[..n], target, hub);
      forall l | l in VendorLinksOf(vendors[..n], target, hub) ensures l.source in vendors {
        var k :| 0 <= k < n && vendors[..n][k] == l.source;
        assert vendors[k] == l.source;
      }
    }
  }

  /** A vendor link runs from a vendor that passes `hub` to an organisation that lists it. */
  lemma {:induction false} VendorLinksSpec(orgs: seq<Organization>, hub: string -> bool)
    ensures forall l :: l in VendorLinks(orgs, hub) ==>
              l.HubLink? && hub(l.source) &&
              exists k :: 0 <= k < |orgs| && l.target == orgs[k].id && l.source in orgs[k].vendors
  {
    if orgs != [] {
      var n := |orgs| - 1;
      VendorLinksSpec(orgs[..n], hub);
      VendorLinksOfSpec(orgs[n].vendors, orgs[n].id, hub);
      forall l | l in VendorLinks(orgs, hub)
        ensures l.HubLink? && hub(l.source) &&
                exists k :: 0 <= k < |orgs| && l.target == orgs[k].id && l.source in orgs[k].vendors
      {
        if l in VendorLinks(orgs[..n], hub) {
          var k :| 0 <= k < n && l.target == orgs[..n][k].id && l.source in orgs[..n][k].vendors;
          assert orgs[..n][k] == orgs[k];
        } else {
          assert l in VendorLinksOf(orgs[n].vendors, orgs[n].id, hub);
        }
      }
    }
  }

  /** In buildAllNetwork and buildVendorNetwork every vendor link starts at an active vendor's hub. */
  lemma ActiveVendorLinks(orgs: seq<Organization>, majors: seq<string>)
    ensures forall l :: l in VendorLinks(orgs, InList(ActiveVendors(orgs, majors))) ==>
              l.source in ActiveVendors(orgs, majors) && l.source in majors
  {
    VendorLinksSpec(orgs, InList(ActiveVendors(orgs, majors)));
    ActiveVendorsSpec(orgs, majors);
  }

  // ---------------------------------------------------------------------
  // Vendor hub network
  // ---------------------------------------------------------------------

  /** `vendorCounts` after counting the entries of `s`. */
  function Tally(s: seq<string>): (m: map<string, nat>)
    ensures forall v :: v in m <==> v in s
  {
    map v | v in s :: multiset(s)[v]
  }

  /** `counts[v] = (counts[v] || 0) + 1`. */
  lemma TallyAppend(s: seq<string>, v: string)
    ensures Tally(s + [v]) == Tally(s)[v := (if v in Tally(s) then Tally(s)[v] else 0) + 1]
  {
    var t := s + [v];
    assert multiset(t) == multiset(s) + multiset{v};
    assert forall u :: u in t <==> u in s || u == v;
  }

  /** How many times each vendor occurs across all organisations' vendor lists. */
  function VendorCounts(orgs: seq<Organization>): map<string, nat> {
    Tally(AllVendors(orgs))
  }

  function IsHub(counts: map<string, nat>): string -> bool {
    v => v in counts && counts[v] >= 2
  }

  function CountKey(counts: map<string, nat>): string -> int {
    v => if v in counts then counts[v] else 0
  }

  /** `activeVendors` of buildVendorHubNetwork: vendors seen at least twice, most frequent first. */
  function HubVendors(orgs: seq<Organization>): seq<string> {
    var counts := VendorCounts(orgs);
    SortDesc(Filter(Distinct(AllVendors(orgs)), IsHub(counts)), CountKey(counts))
  }

  /** The hubs are exactly the vendors that occur at least twice. */
  lemma HubVendorsMembers(orgs: seq<Organization>)
    ensures forall v :: v in HubVendors(orgs) <==> multiset(AllVendors(orgs))[v] >= 2
  {
    var all := AllVendors(orgs);
    var counts := VendorCounts(orgs);
    var d := Distinct(all);
    var f := Filter(d, IsHub(counts));
    DistinctSpec(all);
    SortDescSpec(f, CountKey(counts));
    forall v ensures v in HubVendors(orgs) <==> multiset(all)[v] >= 2 {
      FilterIn(d, IsHub(counts), v);
      assert v in HubVendors(orgs) <==> v in multiset(f);
    }
  }

  /** Each hub vendor appears once. */
  lemma HubVendorsDistinct(orgs: seq<Organization>)
    ensures NoDuplicates(HubVendors(orgs))
  {
    var all := AllVendors(orgs);
    var counts := VendorCounts(orgs);
    var d := Distinct(all);
    var f := Filter(d, IsHub(counts));
    DistinctSpec(all);
    SortDescSpec(f, CountKey(counts));
    forall x ensures multiset(HubVendors(orgs))[x] <= 1 {
      DistinctOnce(d, x);
      FilterCount(d, IsHub(counts), x);
    }
    NoDuplicatesFromCounts(HubVendors(orgs));
  }

  /** Hubs come most frequent first; vendors with equal counts keep their first-occurrence order. */
  lemma HubVendorsOrder(orgs: seq<Organization>)
    ensures SortedDesc(HubVendors(orgs), CountKey(VendorCounts(orgs)))
    ensures forall c :: Filter(HubVendors(orgs), KeyIs(CountKey(VendorCounts(orgs)), c))
                        == Filter(Filter(Distinct(AllVendors(orgs)), IsHub(VendorCounts(orgs))), KeyIs(CountKey(VendorCounts(orgs)), c))
  {
    var counts := VendorCounts(orgs);
    var f := Filter(Distinct(AllVendors(orgs)), IsHub(counts));
    SortDescSpec(f, CountKey(counts));
    forall c ensures Filter(HubVendors(orgs), KeyIs(CountKey(counts), c)) == Filter(f, KeyIs(CountKey(counts), c)) {
      SortDescStable(f, CountKey(counts), c);
    }
  }

  /** The hub node of a vendor: its radius grows with its count. */
  function VendorHubNode(v: string, counts: map<string, nat>): Node {
    var c := if v in counts then counts[v] else 0;
    HubNode(v, VendorHub, 20 + 2 * c, Some(c))
  }

  function VendorHubNodes(vendors: seq<string>, counts: map<string, nat>): (ns: seq<Node>)
    ensures |ns| == |vendors|
  {
    if vendors == [] then []
    else VendorHubNodes(vendors[..|vendors| - 1], counts) + [VendorHubNode(vendors[|vendors| - 1], counts)]
  }

  /** Hub node k carries the vendor's occurrence count and radius 20 + 2 * count. */
  lemma {:induction false} VendorHubNodesAt(orgs: seq<Organization>, vendors: seq<string>, k: nat)
    requires k < |vendors| && vendors[k] in AllVendors(orgs)
    ensures VendorHubNodes(vendors, VendorCounts(orgs))[k] ==
              HubNode(vendors[k], VendorHub, 20 + 2 * multiset(AllVendors(orgs))[vendors[k]],
                      Some(multiset(AllVendors(orgs))[vendors[k]]))
  {
    var n := |vendors| - 1;
    if k < n {
      VendorHubNodesAt(orgs, vendors[..n], k);
    }
  }

  /** `v` is one of `other`'s vendors and passes `hub`. */
  predicate Shares(other: Organization, hub: string -> bool, v: string) {
    v in other.vendors && hub(v)
  }

  /** The `filter` callback of the shared-vendor computation (`includes` and the hub test). */
  function SharedWith(other: Organization, hub: string -> bool): string -> bool {
    v => Shares(other, hub, v)
  }

  /** How many entries of `vs` are vendors of `other` that pass `hub`. */
  function SharedCount(vs: seq<string>, other: Organization, hub: string -> bool): nat {
    if vs == [] then 0
    else SharedCount(vs[..|vs| - 1], other, hub) + (if Shares(other, hub, vs[|vs| - 1]) then 1 else 0)
  }

  /** The count is the length of the filtered list the source builds (`commonVendors.length`). */
  lemma {:induction false} SharedCountIsFilterLength(vs: seq<string>, other: Organization, hub: string -> bool)
    ensures SharedCount(vs, other, hub) == |Filter(vs, SharedWith(other, hub))|
  {
    if vs != [] {
      SharedCountIsFilterLength(vs[..|vs| - 1], other, hub);
    }
  }

  /** The link between two organisations when they share at least one hub vendor entry, as wide as the number shared. */
  function PeerLinkFor(a: Organization, b: Organization, hub: string -> bool): seq<Link> {
    var shared := SharedCount(a.vendors, b, hub);
    if shared >= 1 then [PeerLink(a.id, b.id, Some(shared))] else []
  }

  /** Links from organisation i to the organisations i+1 .. j-1. */
  function RowLinks(orgs: seq<Organization>, i: nat, j: nat, hub: string -> bool): seq<Link>
    requires i < |orgs| && j <= |orgs|
    decreases j
  {
    if j <= i + 1 then [] else RowLinks(orgs, i, j - 1, hub) + PeerLinkFor(orgs[i], orgs[j - 1], hub)
  }

  /** Row i up to j + 1 is row i up to j followed by the link to organisation j, if any. */
  lemma RowLinksStep(base: seq<Link>, orgs: seq<Organization>, i: nat, j: nat, hub: string -> bool)
    requires i < j < |orgs|
    ensures base + RowLinks(orgs, i, j, hub) + PeerLinkFor(orgs[i], orgs[j], hub) == base + RowLinks(orgs, i, j + 1, hub)
  {
    SeqAssoc(base, RowLinks(orgs, i, j, hub), PeerLinkFor(orgs[i], orgs[j], hub));
  }

  /** Links between every pair whose first member lies before index i. */
  function PairLinks(orgs: seq<Organization>, i: nat, hub: string -> bool): seq<Link>
    requires i <= |orgs|
  {
    if i == 0 then [] else PairLinks(orgs, i - 1, hub) + RowLinks(orgs, i - 1, |orgs|, hub)
  }

  /** The pairs before i + 1 are the pairs before i followed by row i. */
  lemma PairLinksStep(base: seq<Link>, orgs: seq<Organization>, i: nat, hub: string -> bool)
    requires i < |orgs|
    ensures base + PairLinks(orgs, i, hub) + RowLinks(orgs, i, |orgs|, hub) == base + PairLinks(orgs, i + 1, hub)
  {
    SeqAssoc(base, PairLinks(orgs, i, hub), RowLinks(orgs, i, |orgs|, hub));
  }

  /** Organisations i < j share `width` >= 1 hub vendor entries and are linked with that width. */
  predicate PeerOf(orgs: seq<Organization>, hub: string -> bool, l: Link, i: int, j: int)
    requires 0 <= i < |orgs| && 0 <= j < |orgs|
  {
    var width := SharedCount(orgs[i].vendors, orgs[j], hub);
    width >= 1 && l == PeerLink(orgs[i].id, orgs[j].id, Some(width))
  }

  /** Every link of row i joins organisation i to a later organisation it shares hub vendors with. */
  lemma {:induction false} RowLinksSound(orgs: seq<Organization>, i: nat, j: nat, hub: string -> bool)
    requires i < |orgs| && j <= |orgs|
    ensures forall l :: l in RowLinks(orgs, i, j, hub) ==> exists m :: i < m < j && PeerOf(orgs, hub, l, i, m)
    decreases j
  {
    if j > i + 1 {
      var prev := RowLinks(orgs, i, j - 1, hub);
      var last := PeerLinkFor(orgs[i], orgs[j - 1], hub);
      RowLinksSound(orgs, i, j - 1, hub);
      assert RowLinks(orgs, i, j, hub) == prev + last;
      forall l | l in prev + last ensures exists m :: i < m < j && PeerOf(orgs, hub, l, i, m) {
        if l in prev {
          var m :| i < m < j - 1 && PeerOf(orgs, hub, l, i, m);
        } else {
          assert PeerOf(orgs, hub, l, i, j - 1);
        }
      }
    }
  }

  /** Row i contains the link of every later organisation before j. */
  lemma {:induction false} RowLinksComplete(orgs: seq<Organization>, i: nat, j: nat, hub: string -> bool)
    requires i < |orgs| && j <= |orgs|
    ensures forall m, l :: i < m < j && l in PeerLinkFor(orgs[i], orgs[m], hub) ==> l in RowLinks(orgs, i, j, hub)
    decreases j
  {
    if j > i + 1 {
      var prev := RowLinks(orgs, i, j - 1, hub);
      var last := PeerLinkFor(orgs[i], orgs[j - 1], hub);
      RowLinksComplete(orgs, i, j - 1, hub);
      assert RowLinks(orgs, i, j, hub) == prev + last;
    }
  }

  lemma RowLinksSpec(orgs: seq<Organization>, i: nat, j: nat, hub: string -> bool)
    requires i < |orgs| && j <= |orgs|
    ensures forall l :: l in RowLinks(orgs, i, j, hub) ==> exists m :: i < m < j && PeerOf(orgs, hub, l, i, m)
    ensures forall m :: i < m < j && SharedCount(orgs[i].vendors, orgs[m], hub) >= 1 ==>
              PeerLink(orgs[i].id, orgs[m].id, Some(SharedCount(orgs[i].vendors, orgs[m], hub))) in RowLinks(orgs, i, j, hub)
  {
    RowLinksSound(orgs, i, j, hub);
    RowLinksComplete(orgs, i, j, hub);
    forall m | i < m < j && SharedCount(orgs[i].vendors, orgs[m], hub) >= 1
      ensures PeerLink(orgs[i].id, orgs[m].id, Some(SharedCount(orgs[i].vendors, orgs[m], hub))) in RowLinks(orgs, i, j, hub)
    {
      assert PeerLink(orgs[i].id, orgs[m].id, Some(SharedCount(orgs[i].vendors, orgs[m], hub))) in PeerLinkFor(orgs[i], orgs[m], hub);
    }
  }

  /**
   * The organisation-to-organisation links of the vendor hub network: the
   * link of every index pair a < b that shares at least one hub vendor, with
   * width the number of shared entries, and only such links.
   */
  lemma {:induction false} PairLinksSpec(orgs: seq<Organization>, i: nat, hub: string -> bool)
    requires i <= |orgs|
    ensures forall l :: l in PairLinks(orgs, i, hub) ==>
              exists a, b :: 0 <= a < i && a < b < |orgs| && PeerOf(orgs, hub, l, a, b)
    ensures forall a, b :: 0 <= a < i && a < b < |orgs| && SharedCount(orgs[a].vendors, orgs[b], hub) >= 1 ==>
              PeerLink(orgs[a].id, orgs[b].id, Some(SharedCount(orgs[a].vendors, orgs[b], hub))) in PairLinks(orgs, i, hub)
  {
    if i > 0 {
      var prev := PairLinks(orgs, i - 1, hub);
      var row := RowLinks(orgs, i - 1, |orgs|, hub);
      PairLinksSpec(orgs, i - 1, hub);
      RowLinksSpec(orgs, i - 1, |orgs|, hub);
      assert PairLinks(orgs, i, hub) == prev + row;
      forall l | l in prev + row ensures exists a, b :: 0 <= a < i && a < b < |orgs| && PeerOf(orgs, hub, l, a, b) {
        if l in prev {
          var a, b :| 0 <= a < i - 1 && a < b < |orgs| && PeerOf(orgs, hub, l, a, b);
        } else {
          var m :| i - 1 < m < |orgs| && PeerOf(orgs, hub, l, i - 1, m);
        }
      }
      forall a, b | 0 <= a < i && a < b < |orgs| && SharedCount(orgs[a].vendors, orgs[b], hub) >= 1
        ensures PeerLink(orgs[a].id, orgs[b].id, Some(SharedCount(orgs[a].vendors, orgs[b], hub))) in prev + row
      {
        var l := PeerLink(orgs[a].id, orgs[b].id, Some(SharedCount(orgs[a].vendors, orgs[b], hub)));
        if a < i - 1 {
          assert l in prev;
        } else {
          assert l in row;
        }
      }
    }
  }

  // ---------------------------------------------------------------------
  // Culture network
  // ---------------------------------------------------------------------

  /** Link `l` connects x and y, in either direction. */
  predicate Joins(l: Link, x: string, y: string) {
    (l.source == x && l.target == y) || (l.source == y && l.target == x)
  }

  /** `this.links.find(...)` succeeds. */
  predicate Connected(links: seq<Link>, x: string, y: string) {
    exists k :: 0 <= k < |links| && Joins(links[k], x, y)
  }

  /** The vendor entries of `a` that `b` also lists. */
  function CommonVendors(a: Organization, b: Organization): seq<string> {
    Filter(a.vendors, InList(b.vendors))
  }

  /** One step of the inner loop: link `o` to `p` when they share two vendors and are not yet connected. */
  function CulturePeerStep(acc: seq<Link>, o: Organization, p: Organization): seq<Link> {
    if o.id != p.id && |CommonVendors(o, p)| >= 2 && !Connected(acc, o.id, p.id)
    then acc + [PeerLink(o.id, p.id, None)]
    else acc
  }

  /** The inner loop over all[..j]. */
  function CulturePeers(acc: seq<Link>, o: Organization, all: seq<Organization>, j: nat): seq<Link>
    requires j <= |all|
  {
    if j == 0 then acc else CulturePeerStep(CulturePeers(acc, o, all, j - 1), o, all[j - 1])
  }

  /**
   * The outer loop over all[..i]: per organisation, the link from the hub
   * `cultureOf` names (when that is a culture id), then its peer links.
   * buildCultureNetwork runs it with `CultureOf()`.
   */
  function CultureLinks(acc: seq<Link>, all: seq<Organization>, i: nat, cultureOf: Organization -> string): seq<Link>
    requires i <= |all|
  {
    if i == 0 then acc
    else
      var o := all[i - 1];
      CulturePeers(CultureLinks(acc, all, i - 1, cultureOf) + LabelLink(o, CultureIds, cultureOf), o, all, |all|)
  }

  /** No two organisation links join the same unordered pair. */
  predicate PeersDistinct(links: seq<Link>) {
    forall p, q :: 0 <= p < q < |links| && links[p].PeerLink? && links[q].PeerLink? ==>
      !Joins(links[q], links[p].source, links[p].target)
  }

  /** A culture organisation link joins two different organisations that share two vendor entries. */
  predicate CulturePeerJustified(l: Link, all: seq<Organization>) {
    l.PeerLink? && l.width.None? &&
    exists a, b :: 0 <= a < |all| && 0 <= b < |all| && l.source == all[a].id && l.target == all[b].id &&
      all[a].id != all[b].id && |CommonVendors(all[a], all[b])| >= 2
  }

  /** What the culture builder keeps true of the link list it extends. */
  predicate CultureInvariant(acc: seq<Link>, links: seq<Link>, all: seq<Organization>) {
    |acc| <= |links| && links[..|acc|] == acc &&
    PeersDistinct(links) &&
    forall k :: |acc| <= k < |links| && links[k].PeerLink? ==> CulturePeerJustified(links[k], all)
  }

  lemma PeerStepKeeps(acc: seq<Link>, links: seq<Link>, all: seq<Organization>, a: nat, b: nat)
    requires a < |all| && b < |all|
    requires PeersDistinct(acc) ==> CultureInvariant(acc, links, all)
    requires PeersDistinct(acc)
    ensures CultureInvariant(acc, CulturePeerStep(links, all[a], all[b]), all)
  {
    var r := CulturePeerStep(links, all[a], all[b]);
    if r != links {
      var l := PeerLink(all[a].id, all[b].id, None);
      assert r == links + [l];
      assert CulturePeerJustified(l, all);
      forall p | 0 <= p < |links| && links[p].PeerLink? ensures !Joins(l, links[p].source, links[p].target) {
        assert !Joins(links[p], all[a].id, all[b].id);
      }
      assert r[..|acc|] == acc;
    }
  }

  lemma {:induction false} CulturePeersKeep(acc: seq<Link>, links: seq<Link>, all: seq<Organization>, a: nat, j: nat)
    requires a < |all| && j <= |all|
    requires PeersDistinct(acc) && CultureInvariant(acc, links, all)
    ensures CultureInvariant(acc, CulturePeers(links, all[a], all, j), all)
  {
    if j > 0 {
      CulturePeersKeep(acc, links, all, a, j - 1);
      PeerStepKeeps(acc, CulturePeers(links, all[a], all, j - 1), all, a, j - 1);
    }
  }

  /**
   * The culture builder only appends: it keeps the links it started from,
   * never joins an unordered pair twice, and links two organisations only
   * when they are different and share at least two vendor entries.
   */
  lemma {:induction false} CultureLinksSpec(acc: seq<Link>, all: seq<Organization>, i: nat, cultureOf: Organization -> string)
    requires i <= |all| && PeersDistinct(acc)
    ensures CultureInvariant(acc, CultureLinks(acc, all, i, cultureOf), all)
  {
    if i > 0 {
      CultureLinksSpec(acc, all, i - 1, cultureOf);
      var before := CultureLinks(acc, all, i - 1, cultureOf);
      var withHub := before + LabelLink(all[i - 1], CultureIds, cultureOf);
      assert withHub[..|acc|] == acc by { assert before[..|acc|] == acc; }
      assert CultureInvariant(acc, withHub, all) by {
        forall k | |acc| <= k < |withHub| && withHub[k].PeerLink? ensures CulturePeerJustified(withHub[k], all) {
          assert k < |before|;
          assert withHub[k] == before[k];
        }
      }
      CulturePeersKeep(acc, withHub, all, i - 1, |all|);
    }
  }

  lemma {:induction false} CulturePeersExtend(links: seq<Link>, o: Organization, all: seq<Organization>, j: nat)
    requires j <= |all|
    ensures |links| <= |CulturePeers(links, o, all, j)|
    ensures CulturePeers(links, o, all, j)[..|links|] == links
  {
    if j > 0 {
      CulturePeersExtend(links, o, all, j - 1);
    }
  }

  /** A connection stays once links are appended after it. */
  lemma ConnectedKept(links: seq<Link>, ext: seq<Link>, x: string, y: string)
    requires |links| <= |ext| && ext[..|links|] == links
    requires Connected(links, x, y)
    ensures Connected(ext, x, y)
  {
    var k :| 0 <= k < |links| && Joins(links[k], x, y);
    assert ext[k] == ext[..|links|][k];
  }

  /**
   * After the inner loop for organisation a has passed organisation b, the
   * two are connected when they are different and share two vendor entries.
   */
  lemma {:induction false} CulturePeersConnect(links: seq<Link>, all: seq<Organization>, a: nat, b: nat, j: nat)
    requires a < |all| && b < j <= |all|
    requires all[a].id != all[b].id && |CommonVendors(all[a], all[b])| >= 2
    ensures Connected(CulturePeers(links, all[a], all, j), all[a].id, all[b].id)
  {
    var before := CulturePeers(links, all[a], all, j - 1);
    var after := CulturePeers(links, all[a], all, j);
    assert after == CulturePeerStep(before, all[a], all[j - 1]);
    assert |before| <= |after| && after[..|before|] == before;
    if b < j - 1 {
      CulturePeersConnect(links, all, a, b, j - 1);
      ConnectedKept(before, after, all[a].id, all[b].id);
    } else if Connected(before, all[a].id, all[b].id) {
      ConnectedKept(before, after, all[a].id, all[b].id);
    } else {
      assert Joins(after[|before|], all[a].id, all[b].id);
    }
  }

  /** Once the outer loop has passed organisation a, it is connected to every peer it qualifies with. */
  lemma {:induction false} CultureLinksConnect(acc: seq<Link>, all: seq<Organization>, i: nat, cultureOf: Organization -> string, a: nat, b: nat)
    requires a < i <= |all| && b < |all|
    requires all[a].id != all[b].id && |CommonVendors(all[a], all[b])| >= 2
    ensures Connected(CultureLinks(acc, all, i, cultureOf), all[a].id, all[b].id)
  {
    var before := CultureLinks(acc, all, i - 1, cultureOf);
    var withHub := before + LabelLink(all[i - 1], CultureIds, cultureOf);
    assert CultureLinks(acc, all, i, cultureOf) == CulturePeers(withHub, all[i - 1], all, |all|);
    if a == i - 1 {
      CulturePeersConnect(withHub, all, a, b, |all|);
    } else {
      CultureLinksConnect(acc, all, i - 1, cultureOf, a, b);
      CulturePeersExtend(withHub, all[i - 1], all, |all|);
      assert withHub[..|before|] == before;
      ConnectedKept(before, withHub, all[a].id, all[b].id);
      ConnectedKept(withHub, CultureLinks(acc, all, i, cultureOf), all[a].id, all[b].id);
    }
  }

  /**
   * The culture builder leaves every pair of different organisations that
   * share at least two vendor entries (in one direction or the other)
   * connected by some link. Like the source's `find`, any link counts: a hub
   * link or one already present can stand in for the organisation link.
   */
  lemma CultureLinksComplete(acc: seq<Link>, all: seq<Organization>, cultureOf: Organization -> string)
    ensures forall a, b ::
              (0 <= a < |all| && 0 <= b < |all| && all[a].id != all[b].id && |CommonVendors(all[a], all[b])| >= 2) ==>
              Connected(CultureLinks(acc, all, |all|, cultureOf), all[a].id, all[b].id)
  {
    forall a, b | 0 <= a < |all| && 0 <= b < |all| && all[a].id != all[b].id && |CommonVendors(all[a], all[b])| >= 2
      ensures Connected(CultureLinks(acc, all, |all|, cultureOf), all[a].id, all[b].id)
    {
      CultureLinksConnect(acc, all, |all|, cultureOf, a, b);
    }
  }

  /** The outer culture loop one organisation further. */
  lemma CultureLinksStep(acc: seq<Link>, all: seq<Organization>, i: nat, cultureOf: Organization -> string)
    requires i < |all|
    ensures CultureLinks(acc, all, i + 1, cultureOf) ==
            CulturePeers(CultureLinks(acc, all, i, cultureOf) + LabelLink(all[i], CultureIds, cultureOf), all[i], all, |all|)
  {
  }

  /** A round of the outer culture loop starts by appending the organisation's culture hub link. */
  lemma CultureLinksGrow(acc: seq<Link>, all: seq<Organization>, i: nat, cultureOf: Organization -> string)
    requires 0 < i <= |all| && cultureOf(all[i - 1]) in CultureIds
    ensures |CultureLinks(acc, all, i - 1, cultureOf)| + 1 <= |CultureLinks(acc, all, i, cultureOf)|
    ensures CultureLinks(acc, all, i, cultureOf)[..|CultureLinks(acc, all, i - 1, cultureOf)| + 1] ==
            CultureLinks(acc, all, i - 1, cultureOf) + [HubLink(cultureOf(all[i - 1]), all[i - 1].id)]
  {
    var o := all[i - 1];
    assert LabelLink(o, CultureIds, cultureOf) == [HubLink(cultureOf(o), o.id)];
    CulturePeersExtend(CultureLinks(acc, all, i - 1, cultureOf) + [HubLink(cultureOf(o), o.id)], o, all, |all|);
  }

  /** When every culture type names a hub, an organisation passed is linked to its hub. */
  lemma {:induction false} CultureHubLinkAt(acc: seq<Link>, all: seq<Organization>, i: nat, cultureOf: Organization -> string, k: nat)
    requires k < i <= |all|
    requires forall o :: cultureOf(o) in CultureIds
    ensures HubLink(cultureOf(all[k]), all[k].id) in CultureLinks(acc, all, i, cultureOf)
    decreases i
  {
    CultureLinksGrow(acc, all, i, cultureOf);
    if k < i - 1 {
      CultureHubLinkAt(acc, all, i - 1, cultureOf, k);
    }
    InExtension(HubLink(cultureOf(all[k]), all[k].id), CultureLinks(acc, all, i - 1, cultureOf),
                HubLink(cultureOf(all[i - 1]), all[i - 1].id), CultureLinks(acc, all, i, cultureOf));
  }

  /** Every organisation is linked to the hub of its culture type, whatever links were there before. */
  lemma CultureHubLinks(acc: seq<Link>, all: seq<Organization>)
    ensures forall k :: 0 <= k < |all| ==>
              HubLink(ClassifyCulture(all[k].culture), all[k].id) in CultureLinks(acc, all, |all|, CultureOf())
  {
    forall k | 0 <= k < |all|
      ensures HubLink(ClassifyCulture(all[k].culture), all[k].id) in CultureLinks(acc, all, |all|, CultureOf())
    {
      CultureHubLinkAt(acc, all, |all|, CultureOf(), k);
    }
  }

  // ---------------------------------------------------------------------
  // buildNetworkData: the graph for each filter
  // ---------------------------------------------------------------------

  /** The builders `buildNetworkData`'s `switch` chooses between. */
  datatype Builder =
    | ScatterBuilder | TimelineBuilder | HeatmapBuilder | CultureBuilder | VendorHubBuilder
    | VendorBuilder | CategoryBuilder | InvestmentBuilder | AiBuilder | BidStyleBuilder | AllBuilder

  predicate KnownFilter(filterType: string) {
    filterType in ["scatter", "timeline", "heatmap", "culture", "vendorHub", "vendor",
                   "category", "investment", "ai", "bidStyle"]
  }

  /** The `case` a filter name selects; any other name (such as "all") takes the `default`. */
  function BuilderFor(filterType: string): (b: Builder)
    ensures b == AllBuilder <==> !KnownFilter(filterType)
    ensures b == HeatmapBuilder <==> filterType == "heatmap"
  {
    if filterType == "scatter" then ScatterBuilder
    else if filterType == "timeline" then TimelineBuilder
    else if filterType == "heatmap" then HeatmapBuilder
    else if filterType == "culture" then CultureBuilder
    else if filterType == "vendorHub" then VendorHubBuilder
    else if filterType == "vendor" then VendorBuilder
    else if filterType == "category" then CategoryBuilder
    else if filterType == "investment" then InvestmentBuilder
    else if filterType == "ai" then AiBuilder
    else if filterType == "bidStyle" then BidStyleBuilder
    else AllBuilder
  }

  /** The nodes a builder leaves in `this.nodes`, starting from the empty list. */
  function BuildNodes(b: Builder, orgs: seq<Organization>): seq<Node> {
    match b
    case ScatterBuilder => OrgNodes(orgs)
    case TimelineBuilder => TimelineNodes(orgs)
    case HeatmapBuilder => HeatmapCells(orgs)
    case CultureBuilder => HubNodes(CultureIds, CultureHub, 35) + OrgNodes(orgs)
    case VendorHubBuilder => VendorHubNodes(HubVendors(orgs), VendorCounts(orgs)) + OrgNodes(orgs)
    case VendorBuilder => HubNodes(ActiveVendors(orgs, MajorVendors), VendorHub, 30) + OrgNodes(orgs)
    case CategoryBuilder => HubNodes(CategoryIds, CategoryHub, 30) + OrgNodes(orgs)
    case InvestmentBuilder => HubNodes(InvestmentLevelIds, InvestmentHub, 30) + OrgNodes(orgs)
    case AiBuilder => HubNodes(AiStatusIds, AiStatusHub, 30) + OrgNodes(orgs)
    case BidStyleBuilder => HubNodes(BidStyleIds, BidStyleHub, 30) + OrgNodes(orgs)
    case AllBuilder => HubNodes(ActiveVendors(orgs, MajorVendors), VendorHub, 25) + OrgNodes(orgs)
  }

  /** The links a builder leaves in `this.links`, starting from the empty list. */
  function BuildLinks(b: Builder, orgs: seq<Organization>): seq<Link> {
    match b
    case ScatterBuilder => []
    case TimelineBuilder => []
    case HeatmapBuilder => []
    case CultureBuilder => CultureLinks([], orgs, |orgs|, CultureOf())
    case VendorHubBuilder =>
      VendorLinks(orgs, IsHub(VendorCounts(orgs))) + PairLinks(orgs, |orgs|, IsHub(VendorCounts(orgs)))
    case VendorBuilder => VendorLinks(orgs, InList(ActiveVendors(orgs, MajorVendors)))
    case CategoryBuilder => LabelLinks(orgs, CategoryIds, CategoryOf())
    case InvestmentBuilder => LabelLinks(orgs, InvestmentLevelIds, InvestmentOf())
    case AiBuilder => LabelLinks(orgs, AiStatusIds, AiOf())
    case BidStyleBuilder => LabelLinks(orgs, BidStyleIds, BidStyleOf())
    case AllBuilder => VendorLinks(orgs, InList(ActiveVendors(orgs, MajorVendors)))
  }

  /** The `currentView` a builder sets. */
  function BuildView(b: Builder): View {
    match b
    case ScatterBuilder => ScatterView
    case TimelineBuilder => TimelineView
    case HeatmapBuilder => HeatmapView
    case _ => NetworkView
  }

  // ---------------------------------------------------------------------
  // Node counts (updateStats)
  // ---------------------------------------------------------------------

  function CountOrgs(ns: seq<Node>): (c: nat)
    ensures c <= |ns|
  {
    if ns == [] then 0 else CountOrgs(ns[..|ns| - 1]) + (if ns[|ns| - 1].OrgNode? then 1 else 0)
  }

  function CountCells(ns: seq<Node>): (c: nat)
    ensures c <= |ns|
  {
    if ns == [] then 0 else CountCells(ns[..|ns| - 1]) + (if ns[|ns| - 1].CellNode? then 1 else 0)
  }

  function CountHubs(ns: seq<Node>): (c: nat)
    ensures c <= |ns|
  {
    if ns == [] then 0 else CountHubs(ns[..|ns| - 1]) + (if ns[|ns| - 1].HubNode? then 1 else 0)
  }

  /** Organisation-like nodes plus cluster nodes are all the nodes. */
  lemma {:induction false} CountsPartition(ns: seq<Node>)
    ensures CountOrgs(ns) + CountCells(ns) + CountHubs(ns) == |ns|
  {
    if ns != [] {
      CountsPartition(ns[..|ns| - 1]);
    }
  }

  lemma {:induction false} CountsAppend(a: seq<Node>, b: seq<Node>)
    ensures CountOrgs(a + b) == CountOrgs(a) + CountOrgs(b)
    ensures CountCells(a + b) == CountCells(a) + CountCells(b)
    ensures CountHubs(a + b) == CountHubs(a) + CountHubs(b)
    decreases |b|
  {
    if b == [] {
      assert a + b == a;
    } else {
      var n := |b| - 1;
      assert (a + b)[..|a + b| - 1] == a + b[..n];
      assert (a + b)[|a + b| - 1] == b[n];
      CountsAppend(a, b[..n]);
    }
  }

  lemma {:induction false} OrgNodesCounts(orgs: seq<Organization>)
    ensures CountOrgs(OrgNodes(orgs)) == |orgs| && CountCells(OrgNodes(orgs)) == 0 && CountHubs(OrgNodes(orgs)) == 0
  {
    if orgs != [] {
      OrgNodesCounts(orgs[..|orgs| - 1]);
    }
  }

  lemma {:induction false} TimelineNodesCounts(orgs: seq<Organization>)
    ensures CountOrgs(TimelineNodes(orgs)) == |orgs| && CountCells(TimelineNodes(orgs)) == 0
    ensures CountHubs(TimelineNodes(orgs)) == 0
  {
    if orgs != [] {
      TimelineNodesCounts(orgs[..|orgs| - 1]);
    }
  }

  lemma {:induction false} HubNodesCounts(ids: seq<string>, kind: HubKind, radius: nat)
    ensures CountOrgs(HubNodes(ids, kind, radius)) == 0 && CountCells(HubNodes(ids, kind, radius)) == 0
    ensures CountHubs(HubNodes(ids, kind, radius)) == |ids|
  {
    if ids != [] {
      HubNodesCounts(ids[..|ids| - 1], kind, radius);
    }
  }

  lemma {:induction false} VendorHubNodesCounts(vendors: seq<string>, counts: map<string, nat>)
    ensures CountOrgs(VendorHubNodes(vendors, counts)) == 0 && CountCells(VendorHubNodes(vendors, counts)) == 0
    ensures CountHubs(VendorHubNodes(vendors, counts)) == |vendors|
  {
    if vendors != [] {
      VendorHubNodesCounts(vendors[..|vendors| - 1], counts);
    }
  }

  lemma {:induction false} CellsForCounts(o: Organization, metrics: seq<string>)
    ensures CountOrgs(CellsFor(o, metrics)) == 0 && CountCells(CellsFor(o, metrics)) == |metrics|
    ensures CountHubs(CellsFor(o, metrics)) == 0
  {
    if metrics != [] {
      CellsForCounts(o, metrics[..|metrics| - 1]);
    }
  }

  lemma {:induction false} HeatmapCellsCounts(orgs: seq<Organization>)
    ensures CountOrgs(HeatmapCells(orgs)) == 0 && CountCells(HeatmapCells(orgs)) == 5 * |orgs|
    ensures CountHubs(HeatmapCells(orgs)) == 0
  {
    if orgs != [] {
      var n := |orgs| - 1;
      HeatmapCellsCounts(orgs[..n]);
      CellsForCounts(orgs[n], HeatmapMetrics);
      CountsAppend(HeatmapCells(orgs[..n]), CellsFor(orgs[n], HeatmapMetrics));
    }
  }

  /**
   * Every builder adds exactly one organisation node per organisation,
   * except the heatmap, which adds five cells per organisation instead.
   */
  lemma OneOrganizationNodeEach(b: Builder, orgs: seq<Organization>)
    ensures b != HeatmapBuilder ==>
              CountOrgs(BuildNodes(b, orgs)) == |orgs| && CountCells(BuildNodes(b, orgs)) == 0
    ensures b == HeatmapBuilder ==>
              CountOrgs(BuildNodes(b, orgs)) == 0 && CountCells(BuildNodes(b, orgs)) == 5 * |orgs|
  {
    match b
    case ScatterBuilder => OrgNodesCounts(orgs);
    case TimelineBuilder => TimelineNodesCounts(orgs);
    case HeatmapBuilder => HeatmapCellsCounts(orgs);
    case CultureBuilder => HubsThenOrganizations(CultureIds, CultureHub, 35, orgs);
    case VendorHubBuilder =>
      OrgNodesCounts(orgs);
      VendorHubNodesCounts(HubVendors(orgs), VendorCounts(orgs));
      CountsAppend(VendorHubNodes(HubVendors(orgs), VendorCounts(orgs)), OrgNodes(orgs));
    case VendorBuilder => HubsThenOrganizations(ActiveVendors(orgs, MajorVendors), VendorHub, 30, orgs);
    case CategoryBuilder => HubsThenOrganizations(CategoryIds, CategoryHub, 30, orgs);
    case InvestmentBuilder => HubsThenOrganizations(InvestmentLevelIds, InvestmentHub, 30, orgs);
    case AiBuilder => HubsThenOrganizations(AiStatusIds, AiStatusHub, 30, orgs);
    case BidStyleBuilder => HubsThenOrganizations(BidStyleIds, BidStyleHub, 30, orgs);
    case AllBuilder => HubsThenOrganizations(ActiveVendors(orgs, MajorVendors), VendorHub, 25, orgs);
  }

  lemma HubsThenOrganizations(ids: seq<string>, kind: HubKind, radius: nat, orgs: seq<Organization>)
    ensures CountOrgs(HubNodes(ids, kind, radius) + OrgNodes(orgs)) == |orgs|
    ensures CountCells(HubNodes(ids, kind, radius) + OrgNodes(orgs)) == 0
  {
    OrgNodesCounts(orgs);
    HubNodesCounts(ids, kind, radius);
    CountsAppend(HubNodes(ids, kind, radius), OrgNodes(orgs));
  }

  /** The organisation count `updateStats` displays. */
  function DisplayCount(view: View, heatmapOrgCount: Option<nat>, nodes: seq<Node>): nat {
    if view == HeatmapView && heatmapOrgCount.Some? then heatmapOrgCount.value
    else CountOrgs(nodes) + CountCells(nodes)
  }

  /** Whichever filter was built, the displayed organisation count is the number of organisations. */
  lemma DisplayedCountIsOrganizations(b: Builder, orgs: seq<Organization>, previous: Option<nat>)
    ensures DisplayCount(BuildView(b), if b == HeatmapBuilder then Some(|orgs|) else previous,
                         BuildNodes(b, orgs)) == |orgs|
  {
    OneOrganizationNodeEach(b, orgs);
  }
}

/**
 * The graph-building part of the `NetworkNavigator` class of script.js: the
 * builders push onto the `nodes` and `links` sequences one record at a time,
 * count vendor occurrences in a dictionary and set `currentView`. Each
 * method is proved to leave exactly the sequences described in module
 * Network, whose lemmas state what those graphs contain.
 *
 * Rendering, the force simulation, zoom, drag, tooltips, legends and the
 * image export are not modelled; `updateStats` returns the three numbers it
 * would write into the page.
 */
module Navigator {
  import opened Common
  import opened Rules
  import opened Network

  /** One more vendor entry seen by the `activeVendors` loop: it is added when listed and new. */
  lemma ActiveStep(seen: seq<string>, v: string, vendors: seq<string>)
    ensures Distinct(Filter(seen + [v], InList(vendors))) ==
              if v in vendors && v !in Distinct(Filter(seen, InList(vendors)))
              then Distinct(Filter(seen, InList(vendors))) + [v]
              else Distinct(Filter(seen, InList(vendors)))
  {
    var kept := Filter(seen, InList(vendors));
    assert (seen + [v])[..|seen|] == seen;
    DistinctSpec(kept);
    if v in vendors {
      assert Filter(seen + [v], InList(vendors)) == kept + [v];
      assert (kept + [v])[..|kept|] == kept;
    } else {
      assert Filter(seen + [v], InList(vendors)) == kept;
    }
  }

  /** Appending one organisation's vendor list to the entries seen so far. */
  lemma AllVendorsStep(orgs: seq<Organization>, i: nat)
    requires i < |orgs|
    ensures AllVendors(orgs[..i + 1]) == AllVendors(orgs[..i]) + orgs[i].vendors
  {
    assert orgs[..i + 1][..i] == orgs[..i];
  }

  /** The inner `forEach` of the counting loop: count each entry of one organisation's vendor list. */
  method CountEntries(vendors: seq<string>, counts0: map<string, nat>, order0: seq<string>, ghost seen: seq<string>)
    returns (counts: map<string, nat>, order: seq<string>)
    requires counts0 == Tally(seen) && order0 == Distinct(seen)
    ensures counts == Tally(seen + vendors) && order == Distinct(seen + vendors)
  {
    counts, order := counts0, order0;
    var j := 0;
    assert seen + vendors[..0] == seen;
    while j < |vendors|
      invariant 0 <= j <= |vendors|
      invariant counts == Tally(seen + vendors[..j]) && order == Distinct(seen + vendors[..j])
    {
      var v := vendors[j];
      ghost var prefix := seen + vendors[..j];
      TallyAppend(prefix, v);
      assert (prefix + [v])[..|prefix|] == prefix;
      if v !in counts {
        order := order + [v];
      }
      counts := counts[v := (if v in counts then counts[v] else 0) + 1];
      PrefixAppend(seen, vendors, j);
      j := j + 1;
    }
    assert vendors[..j] == vendors;
  }

  /**
   * `vendorCounts` of buildVendorHubNetwork, together with the order in
   * which its keys were first inserted (the order `Object.entries` yields).
   */
  method CountVendors(orgs: seq<Organization>) returns (counts: map<string, nat>, order: seq<string>)
    ensures counts == VendorCounts(orgs)
    ensures forall v :: v in counts ==> counts[v] == multiset(AllVendors(orgs))[v]
    ensures order == Distinct(AllVendors(orgs))
  {
    counts, order := map[], [];
    var i := 0;
    while i < |orgs|
      invariant 0 <= i <= |orgs|
      invariant counts == Tally(AllVendors(orgs[..i])) && order == Distinct(AllVendors(orgs[..i]))
    {
      counts, order := CountEntries(orgs[i].vendors, counts, order, AllVendors(orgs[..i]));
      AllVendorsStep(orgs, i);
      i := i + 1;
    }
    assert orgs[..i] == orgs;
  }

  /** `activeVendors` of buildVendorHubNetwork: the counted entries with count >= 2, most frequent first. */
  method RankHubVendors(orgs: seq<Organization>) returns (counts: map<string, nat>, active: seq<string>)
    ensures counts == VendorCounts(orgs)
    ensures active == HubVendors(orgs)
  {
    var order;
    counts, order := CountVendors(orgs);
    active := SortDesc(Filter(order, IsHub(counts)), CountKey(counts));
  }

  /** `active` after the `activeVendors` loop has added the listed entries of `entries`, in order. */
  function AddListed(active: seq<string>, entries: seq<string>, vendors: seq<string>): seq<string> {
    if entries == [] then active
    else
      var before := AddListed(active, entries[..|entries| - 1], vendors);
      var v := entries[|entries| - 1];
      if v in vendors && v !in before then before + [v] else before
  }

  /** Adding entries one by one keeps `active` the distinct listed entries seen so far. */
  lemma {:induction false} AddListedSpec(seen: seq<string>, entries: seq<string>, vendors: seq<string>)
    ensures AddListed(Distinct(Filter(seen, InList(vendors))), entries, vendors) ==
            Distinct(Filter(seen + entries, InList(vendors)))
    decreases |entries|
  {
    if entries == [] {
      assert seen + entries == seen;
    } else {
      var n := |entries| - 1;
      var v := entries[n];
      var prev := seen + entries[..n];
      var before := AddListed(Distinct(Filter(seen, InList(vendors))), entries[..n], vendors);
      AddListedSpec(seen, entries[..n], vendors);
      assert before == Distinct(Filter(prev, InList(vendors)));
      ActiveStep(prev, v, vendors);
      assert AddListed(Distinct(Filter(seen, InList(vendors))), entries, vendors) ==
             if v in vendors && v !in before then before + [v] else before;
      AppendLast(seen, entries);
      assert Distinct(Filter(seen + entries, InList(vendors))) == Distinct(Filter(prev + [v], InList(vendors)));
    }
  }

  /** The inner `forEach` of the `activeVendors` loop over one organisation's vendor list. */
  method CollectEntries(listed: seq<string>, vendors: seq<string>, active0: seq<string>, ghost seen: seq<string>)
    returns (active: seq<string>)
    requires active0 == Distinct(Filter(seen, InList(vendors)))
    ensures active == Distinct(Filter(seen + listed, InList(vendors)))
  {
    active := active0;
    var j := 0;
    while j < |listed|
      invariant 0 <= j <= |listed|
      invariant active == AddListed(active0, listed[..j], vendors)
    {
      var v := listed[j];
      if v in vendors && v !in active {
        active := active + [v];
      }
      PrefixStep(listed, j);
      j := j + 1;
    }
    assert listed[..j] == listed;
    AddListedSpec(seen, listed, vendors);
  }

  /** The `activeVendors` set of buildAllNetwork and buildVendorNetwork, in insertion order. */
  method CollectActiveVendors(orgs: seq<Organization>, vendors: seq<string>) returns (active: seq<string>)
    ensures active == ActiveVendors(orgs, vendors)
    ensures NoDuplicates(active)
    ensures forall v :: v in active <==> v in vendors && v in AllVendors(orgs)
  {
    active := [];
    var i := 0;
    while i < |orgs|
      invariant 0 <= i <= |orgs|
      invariant active == Distinct(Filter(AllVendors(orgs[..i]), InList(vendors)))
    {
      active := CollectEntries(orgs[i].vendors, vendors, active, AllVendors(orgs[..i]));
      AllVendorsStep(orgs, i);
      i := i + 1;
    }
    assert orgs[..i] == orgs;
    ActiveVendorsSpec(orgs, vendors);
  }

  class NetworkNavigator {
    var nodes: seq<Node>
    var links: seq<Link>
    var currentFilter: string
    var currentView: View
    /** `heatmapConfig.organizations.length`, once a heatmap has been built. */
    var heatmapOrgCount: Option<nat>

    /** `constructor()` followed by the graph part of `init()`: the "all" network is built. */
    constructor (orgs: seq<Organization>)
      ensures currentFilter == "all" && currentView == NetworkView && heatmapOrgCount == None
      ensures nodes == BuildNodes(AllBuilder, orgs) && links == BuildLinks(AllBuilder, orgs)
    {
      nodes, links := [], [];
      currentFilter := "all";
      currentView := NetworkView;
      heatmapOrgCount := None;
      new;
      BuildNetworkData("all", orgs);
    }

    /** `buildNetworkData(filterType)`: empty both lists, then run the builder the filter selects. */
    method BuildNetworkData(filterType: string, orgs: seq<Organization>)
      modifies this`nodes, this`links, this`currentView, this`heatmapOrgCount
      ensures nodes == BuildNodes(BuilderFor(filterType), orgs)
      ensures links == BuildLinks(BuilderFor(filterType), orgs)
      ensures currentView == BuildView(BuilderFor(filterType))
      ensures heatmapOrgCount == if filterType == "heatmap" then Some(|orgs|) else old(heatmapOrgCount)
    {
      nodes := [];
      links := [];
      var builder := BuilderFor(filterType);
      match builder {
        case ScatterBuilder =>
          BuildScatterData(orgs);
        case TimelineBuilder =>
          BuildTimelineData(orgs);
        case HeatmapBuilder =>
          BuildHeatmapData(orgs);
        case CultureBuilder =>
          BuildCultureNetwork(orgs);
        case VendorHubBuilder =>
          BuildVendorHubNetwork(orgs);
        case VendorBuilder =>
          BuildVendorNetwork(orgs);
        case CategoryBuilder =>
          BuildCategoryNetwork(orgs);
        case InvestmentBuilder =>
          BuildInvestmentNetwork(orgs);
        case AiBuilder =>
          BuildAiNetwork(orgs);
        case BidStyleBuilder =>
          BuildBidStyleNetwork(orgs);
        case AllBuilder =>
          BuildAllNetwork(orgs);
      }
    }

    /** `buildScatterData`: one organisation node per organisation (positions are not modelled). */
    method BuildScatterData(orgs: seq<Organization>)
      modifies this`nodes, this`currentView
      ensures currentView == ScatterView
      ensures nodes == old(nodes) + BuildNodes(ScatterBuilder, orgs)
    {
      currentView := ScatterView;
      var i := 0;
      while i < |orgs|
        invariant 0 <= i <= |orgs|
        invariant currentView == ScatterView
        invariant nodes == old(nodes) + OrgNodes(orgs[..i])
      {
        nodes := nodes + [OrgNodeOf(orgs[i])];
        assert orgs[..i + 1][..i] == orgs[..i];
        i := i + 1;
      }
      assert orgs[..i] == orgs;
    }

    /** `buildTimelineData`: one organisation node per organisation, with the year it is placed at. */
    method BuildTimelineData(orgs: seq<Organization>)
      modifies this`nodes, this`currentView
      ensures currentView == TimelineView
      ensures nodes == old(nodes) + BuildNodes(TimelineBuilder, orgs)
    {
      currentView := TimelineView;
      var i := 0;
      while i < |orgs|
        invariant 0 <= i <= |orgs|
        invariant currentView == TimelineView
        invariant nodes == old(nodes) + TimelineNodes(orgs[..i])
      {
        var org := orgs[i];
        var year := TimelineYear(org.systemRenewal, i);
        nodes := nodes + [OrgNode(org.id, org.category, Some(year))];
        assert orgs[..i + 1][..i] == orgs[..i];
        i := i + 1;
      }
      assert orgs[..i] == orgs;
    }

    /** `buildHeatmapData`: five cells per organisation, and the organisation count for the stats. */
    method BuildHeatmapData(orgs: seq<Organization>)
      modifies this`nodes, this`currentView, this`heatmapOrgCount
      ensures currentView == HeatmapView
      ensures nodes == old(nodes) + BuildNodes(HeatmapBuilder, orgs)
      ensures heatmapOrgCount == Some(|orgs|)
    {
      currentView := HeatmapView;
      ghost var done := [];
      var row := 0;
      while row < |orgs|
        invariant 0 <= row <= |orgs|
        invariant currentView == HeatmapView
        invariant done == HeatmapCells(orgs[..row]) && nodes == old(nodes) + done
      {
        var org := orgs[row];
        AddCells(org, HeatmapMetrics);
        assert HeatmapCells(orgs[..row + 1]) == done + CellsFor(org, HeatmapMetrics) by {
          assert orgs[..row + 1][..row] == orgs[..row];
        }
        SeqAssoc(old(nodes), done, CellsFor(org, HeatmapMetrics));
        done := done + CellsFor(org, HeatmapMetrics);
        row := row + 1;
      }
      assert orgs[..row] == orgs;
      heatmapOrgCount := Some(|orgs|);
    }

    /** The inner `forEach` of buildHeatmapData: one cell per metric for one organisation. */
    method AddCells(org: Organization, metrics: seq<string>)
      modifies this`nodes
      ensures nodes == old(nodes) + CellsFor(org, metrics)
    {
      ghost var done := [];
      var col := 0;
      while col < |metrics|
        invariant 0 <= col <= |metrics|
        invariant done == CellsFor(org, metrics[..col]) && nodes == old(nodes) + done
      {
        nodes := nodes + [CellNode(org.id + "-" + metrics[col], org.id, metrics[col])];
        assert CellsFor(org, metrics[..col + 1]) == done + [CellOf(org, metrics[col])] by {
          assert metrics[..col + 1][..col] == metrics[..col];
        }
        SeqAssoc(old(nodes), done, [CellOf(org, metrics[col])]);
        done := done + [CellOf(org, metrics[col])];
        col := col + 1;
      }
      assert metrics[..col] == metrics;
    }

    /** Push one hub node per id (the `forEach` that opens most builders). */
    method AddHubs(ids: seq<string>, kind: HubKind, radius: nat)
      modifies this`nodes
      ensures nodes == old(nodes) + HubNodes(ids, kind, radius)
    {
      var i := 0;
      while i < |ids|
        invariant 0 <= i <= |ids|
        invariant nodes == old(nodes) + HubNodes(ids[..i], kind, radius)
      {
        nodes := nodes + [HubNode(ids[i], kind, radius, None)];
        assert ids[..i + 1][..i] == ids[..i];
        i := i + 1;
      }
      assert ids[..i] == ids;
    }

    /**
     * The shape shared by the bid-style, category, investment and AI builders:
     * a hub of radius 30 per id, then each organisation with the link from its label's hub.
     */
    method AddLabelledNetwork(orgs: seq<Organization>, ids: seq<string>, kind: HubKind, labelOf: Organization -> string)
      modifies this`nodes, this`links
      ensures nodes == old(nodes) + (HubNodes(ids, kind, 30) + OrgNodes(orgs))
      ensures links == old(links) + LabelLinks(orgs, ids, labelOf)
    {
      AddHubs(ids, kind, 30);
      AddLabelledOrganizations(orgs, ids, labelOf);
      SeqAssoc(old(nodes), HubNodes(ids, kind, 30), OrgNodes(orgs));
    }

    /** Push one organisation's node and, when its label names a hub, the link from that hub. */
    method AddLabelledOrganization(org: Organization, labels: seq<string>, labelOf: Organization -> string)
      modifies this`nodes, this`links
      ensures nodes == old(nodes) + [OrgNodeOf(org)]
      ensures links == old(links) + LabelLink(org, labels, labelOf)
    {
      nodes := nodes + [OrgNodeOf(org)];
      var hub := labelOf(org);
      if hub in labels {
        links := links + [HubLink(hub, org.id)];
      }
    }

    /** Push each organisation's node and, when its label names a hub, the link from that hub. */
    method AddLabelledOrganizations(orgs: seq<Organization>, labels: seq<string>, labelOf: Organization -> string)
      modifies this`nodes, this`links
      ensures nodes == old(nodes) + OrgNodes(orgs)
      ensures links == old(links) + LabelLinks(orgs, labels, labelOf)
    {
      ghost var doneNodes, doneLinks := [], [];
      var i := 0;
      while i < |orgs|
        invariant 0 <= i <= |orgs|
        invariant doneNodes == OrgNodes(orgs[..i]) && nodes == old(nodes) + doneNodes
        invariant doneLinks == LabelLinks(orgs[..i], labels, labelOf) && links == old(links) + doneLinks
      {
        var org := orgs[i];
        AddLabelledOrganization(org, labels, labelOf);
        OrgNodesStep(orgs, i);
        LabelLinksStep(orgs, i, labels, labelOf);
        SeqAssoc(old(nodes), doneNodes, [OrgNodeOf(org)]);
        SeqAssoc(old(links), doneLinks, LabelLink(org, labels, labelOf));
        doneNodes, doneLinks := doneNodes + [OrgNodeOf(org)], doneLinks + LabelLink(org, labels, labelOf);
        i := i + 1;
      }
      assert orgs[..i] == orgs;
    }

    /** The inner `forEach` over one organisation's vendors: a link from each vendor that passes `hub`. */
    method AddVendorLinks(vendors: seq<string>, target: string, hub: string -> bool)
      modifies this`links
      ensures links == old(links) + VendorLinksOf(vendors, target, hub)
    {
      var j := 0;
      while j < |vendors|
        invariant 0 <= j <= |vendors|
        invariant links == old(links) + VendorLinksOf(vendors[..j], target, hub)
      {
        if hub(vendors[j]) {
          links := links + [HubLink(vendors[j], target)];
        }
        assert vendors[..j + 1][..j] == vendors[..j];
        j := j + 1;
      }
      assert vendors[..j] == vendors;
    }

    /** Push each organisation's node and the links from the hubs of its vendors that pass `hub`. */
    method AddOrganizationsWithVendorLinks(orgs: seq<Organization>, hub: string -> bool)
      modifies this`nodes, this`links
      ensures nodes == old(nodes) + OrgNodes(orgs)
      ensures links == old(links) + VendorLinks(orgs, hub)
    {
      var i := 0;
      while i < |orgs|
        invariant 0 <= i <= |orgs|
        invariant nodes == old(nodes) + OrgNodes(orgs[..i])
        invariant links == old(links) + VendorLinks(orgs[..i], hub)
      {
        var org := orgs[i];
        nodes := nodes + [OrgNodeOf(org)];
        var vendors := org.vendors;
        AddVendorLinks(vendors, org.id, hub);
        assert orgs[..i + 1][..i] == orgs[..i];
        assert OrgNodes(orgs[..i + 1]) == OrgNodes(orgs[..i]) + [OrgNodeOf(org)];
        assert VendorLinks(orgs[..i + 1], hub) == VendorLinks(orgs[..i], hub) + VendorLinksOf(vendors, org.id, hub);
        i := i + 1;
      }
      assert orgs[..i] == orgs;
    }

    /** The inner `forEach` of buildCultureNetwork: link `org` to each organisation it shares two vendors with, unless already linked. */
    method AddCulturePeers(org: Organization, orgs: seq<Organization>)
      modifies this`links
      ensures links == CulturePeers(old(links), org, orgs, |orgs|)
    {
      var k := 0;
      while k < |orgs|
        invariant 0 <= k <= |orgs|
        invariant links == CulturePeers(old(links), org, orgs, k)
      {
        var other := orgs[k];
        if org.id != other.id {
          var common := Filter(org.vendors, InList(other.vendors));
          if |common| >= 2 {
            var existing := Connected(links, org.id, other.id);
            if !existing {
              links := links + [PeerLink(org.id, other.id, None)];
            }
          }
        }
        k := k + 1;
      }
    }

    /** One pass of the outer `forEach` of buildCultureNetwork: the node, the culture hub link, then the peer links. */
    method AddCultureOrganization(org: Organization, orgs: seq<Organization>)
      modifies this`nodes, this`links
      ensures nodes == old(nodes) + [OrgNodeOf(org)]
      ensures links == CulturePeers(old(links) + LabelLink(org, CultureIds, CultureOf()), org, orgs, |orgs|)
    {
      var cultureType := ClassifyCulture(org.culture);
      nodes := nodes + [OrgNodeOf(org)];
      if cultureType in CultureIds {
        links := links + [HubLink(cultureType, org.id)];
      }
      AddCulturePeers(org, orgs);
    }

    /** `buildCultureNetwork`. */
    method BuildCultureNetwork(orgs: seq<Organization>)
      modifies this`nodes, this`links, this`currentView
      ensures currentView == NetworkView
      ensures nodes == old(nodes) + BuildNodes(CultureBuilder, orgs)
      ensures links == CultureLinks(old(links), orgs, |orgs|, CultureOf())
    {
      currentView := NetworkView;
      AddHubs(CultureIds, CultureHub, 35);
      ghost var hubs := nodes;
      ghost var orgNodes: seq<Node> := [];
      var i := 0;
      while i < |orgs|
        invariant 0 <= i <= |orgs|
        invariant currentView == NetworkView
        invariant orgNodes == OrgNodes(orgs[..i])
        invariant nodes == hubs + orgNodes
        invariant links == CultureLinks(old(links), orgs, i, CultureOf())
      {
        AddCultureOrganization(orgs[i], orgs);
        CultureLinksStep(old(links), orgs, i, CultureOf());
        OrgNodesStep(orgs, i);
        SeqAssoc(hubs, orgNodes, [OrgNodeOf(orgs[i])]);
        orgNodes := orgNodes + [OrgNodeOf(orgs[i])];
        i := i + 1;
      }
      assert orgs[..i] == orgs;
      SeqAssoc(old(nodes), HubNodes(CultureIds, CultureHub, 35), OrgNodes(orgs));
    }

    /** Push the hub node of each active vendor, sized by its count. */
    method AddVendorHubs(active: seq<string>, counts: map<string, nat>)
      modifies this`nodes
      ensures nodes == old(nodes) + VendorHubNodes(active, counts)
    {
      var i := 0;
      while i < |active|
        invariant 0 <= i <= |active|
        invariant nodes == old(nodes) + VendorHubNodes(active[..i], counts)
      {
        var vendor := active[i];
        var count := if vendor in counts then counts[vendor] else 0;
        nodes := nodes + [HubNode(vendor, VendorHub, 20 + count * 2, Some(count))];
        assert active[..i + 1][..i] == active[..i];
        i := i + 1;
      }
      assert active[..i] == active;
    }

    /** Link two organisations when they share at least one vendor passing `hub`, with the shared count as width. */
    method AddPeerLink(a: Organization, b: Organization, hub: string -> bool)
      modifies this`links
      ensures links == old(links) + PeerLinkFor(a, b, hub)
    {
      var shared := Filter(a.vendors, SharedWith(b, hub));
      SharedCountIsFilterLength(a.vendors, b, hub);
      if |shared| >= 1 {
        links := links + [PeerLink(a.id, b.id, Some(|shared|))];
      }
    }

    /** The inner `forEach` over `organizations.slice(i + 1)`: link organisation i to each later one it shares a hub vendor with. */
    method AddRowLinks(orgs: seq<Organization>, i: nat, hub: string -> bool)
      requires i < |orgs|
      modifies this`links
      ensures links == old(links) + RowLinks(orgs, i, |orgs|, hub)
    {
      var j := i + 1;
      while j < |orgs|
        invariant i + 1 <= j <= |orgs|
        invariant links == old(links) + RowLinks(orgs, i, j, hub)
      {
        AddRowLink(orgs, i, j, hub, old(links));
        j := j + 1;
      }
    }

    /** One step of the inner `forEach`: row i grows from j to j + 1 organisations. */
    method AddRowLink(orgs: seq<Organization>, i: nat, j: nat, hub: string -> bool, ghost base: seq<Link>)
      requires i < j < |orgs|
      requires links == base + RowLinks(orgs, i, j, hub)
      modifies this`links
      ensures links == base + RowLinks(orgs, i, j + 1, hub)
    {
      AddPeerLink(orgs[i], orgs[j], hub);
      RowLinksStep(base, orgs, i, j, hub);
    }

    /** Link every pair i < j of organisations that shares at least one vendor passing `hub`. */
    method AddPeerLinks(orgs: seq<Organization>, hub: string -> bool)
      modifies this`links
      ensures links == old(links) + PairLinks(orgs, |orgs|, hub)
    {
      var i := 0;
      while i < |orgs|
        invariant 0 <= i <= |orgs|
        invariant links == old(links) + PairLinks(orgs, i, hub)
      {
        AddRowLinks(orgs, i, hub);
        PairLinksStep(old(links), orgs, i, hub);
        i := i + 1;
      }
    }

    /** `buildVendorHubNetwork`. */
    method BuildVendorHubNetwork(orgs: seq<Organization>)
      modifies this`nodes, this`links, this`currentView
      ensures currentView == NetworkView
      ensures nodes == old(nodes) + BuildNodes(VendorHubBuilder, orgs)
      ensures links == old(links) + BuildLinks(VendorHubBuilder, orgs)
    {
      currentView := NetworkView;
      var counts, active := RankHubVendors(orgs);
      AddVendorHubGraph(orgs, active, counts);
    }

    /** The body of buildVendorHubNetwork once the vendors are counted and ranked. */
    method AddVendorHubGraph(orgs: seq<Organization>, active: seq<string>, counts: map<string, nat>)
      modifies this`nodes, this`links
      ensures nodes == old(nodes) + (VendorHubNodes(active, counts) + OrgNodes(orgs))
      ensures links == old(links) + (VendorLinks(orgs, IsHub(counts)) + PairLinks(orgs, |orgs|, IsHub(counts)))
    {
      AddVendorHubs(active, counts);
      var isHub := IsHub(counts);
      AddOrganizationsWithVendorLinks(orgs, isHub);
      AddPeerLinks(orgs, isHub);
      SeqAssoc(old(nodes), VendorHubNodes(active, counts), OrgNodes(orgs));
      SeqAssoc(old(links), VendorLinks(orgs, isHub), PairLinks(orgs, |orgs|, isHub));
    }

    /** `buildBidStyleNetwork`. */
    method BuildBidStyleNetwork(orgs: seq<Organization>)
      modifies this`nodes, this`links, this`currentView
      ensures currentView == NetworkView
      ensures nodes == old(nodes) + BuildNodes(BidStyleBuilder, orgs)
      ensures links == old(links) + BuildLinks(BidStyleBuilder, orgs)
    {
      currentView := NetworkView;
      AddLabelledNetwork(orgs, BidStyleIds, BidStyleHub, BidStyleOf());
    }

    /** `buildAllNetwork` with `window.majorVendors`: a hub per active vendor, radius 25. */
    method BuildAllNetwork(orgs: seq<Organization>)
      modifies this`nodes, this`links, this`currentView
      ensures currentView == NetworkView
      ensures nodes == old(nodes) + BuildNodes(AllBuilder, orgs)
      ensures links == old(links) + BuildLinks(AllBuilder, orgs)
    {
      currentView := NetworkView;
      ghost var nodes0, links0 := nodes, links;
      var active := CollectActiveVendors(orgs, MajorVendors);
      ghost var hubs := HubNodes(active, VendorHub, 25);
      AddHubs(active, VendorHub, 25);
      AddOrganizationsWithVendorLinks(orgs, InList(active));
      SeqAssoc(nodes0, hubs, OrgNodes(orgs));
      assert BuildNodes(AllBuilder, orgs) == hubs + OrgNodes(orgs);
      assert BuildLinks(AllBuilder, orgs) == VendorLinks(orgs, InList(active));
    }

    /** `buildVendorNetwork` with `window.majorVendors`: as buildAllNetwork, with hubs of radius 30. */
    method BuildVendorNetwork(orgs: seq<Organization>)
      modifies this`nodes, this`links, this`currentView
      ensures currentView == NetworkView
      ensures nodes == old(nodes) + BuildNodes(VendorBuilder, orgs)
      ensures links == old(links) + BuildLinks(VendorBuilder, orgs)
    {
      currentView := NetworkView;
      ghost var nodes0, links0 := nodes, links;
      var active := CollectActiveVendors(orgs, MajorVendors);
      ghost var hubs := HubNodes(active, VendorHub, 30);
      AddHubs(active, VendorHub, 30);
      AddOrganizationsWithVendorLinks(orgs, InList(active));
      SeqAssoc(nodes0, hubs, OrgNodes(orgs));
      assert BuildNodes(VendorBuilder, orgs) == hubs + OrgNodes(orgs);
      assert BuildLinks(VendorBuilder, orgs) == VendorLinks(orgs, InList(active));
    }

    /** `buildCategoryNetwork` with `window.categories`. */
    method BuildCategoryNetwork(orgs: seq<Organization>)
      modifies this`nodes, this`links, this`currentView
      ensures currentView == NetworkView
      ensures nodes == old(nodes) + BuildNodes(CategoryBuilder, orgs)
      ensures links == old(links) + BuildLinks(CategoryBuilder, orgs)
    {
      currentView := NetworkView;
      AddLabelledNetwork(orgs, CategoryIds, CategoryHub, CategoryOf());
    }

    /** `buildInvestmentNetwork`. */
    method BuildInvestmentNetwork(orgs: seq<Organization>)
      modifies this`nodes, this`links, this`currentView
      ensures currentView == NetworkView
      ensures nodes == old(nodes) + BuildNodes(InvestmentBuilder, orgs)
      ensures links == old(links) + BuildLinks(InvestmentBuilder, orgs)
    {
      currentView := NetworkView;
      AddLabelledNetwork(orgs, InvestmentLevelIds, InvestmentHub, InvestmentOf());
    }

    /** `buildAINetwork`. */
    method BuildAiNetwork(orgs: seq<Organization>)
      modifies this`nodes, this`links, this`currentView
      ensures currentView == NetworkView
      ensures nodes == old(nodes) + BuildNodes(AiBuilder, orgs)
      ensures links == old(links) + BuildLinks(AiBuilder, orgs)
    {
      currentView := NetworkView;
      AddLabelledNetwork(orgs, AiStatusIds, AiStatusHub, AiOf());
    }

    /**
     * `updateStats`: the organisation count shown (organisation and cell
     * nodes, or the heatmap's organisation count), the link count and the
     * cluster count; organisation-like and cluster nodes together are all nodes.
     */
    method UpdateStats() returns (displayOrgCount: nat, linkCount: nat, clusterCount: nat)
      ensures linkCount == |links|
      ensures clusterCount == CountHubs(nodes)
      ensures displayOrgCount == DisplayCount(currentView, heatmapOrgCount, nodes)
      ensures CountOrgs(nodes) + CountCells(nodes) + clusterCount == |nodes|
    {
      var orgNodes := CountOrgs(nodes) + CountCells(nodes);
      clusterCount := CountHubs(nodes);
      displayOrgCount := orgNodes;
      if currentView == HeatmapView && heatmapOrgCount.Some? {
        displayOrgCount := heatmapOrgCount.value;
      }
      linkCount := |links|;
      CountsPartition(nodes);
    }

    /**
     * The filter selector's change handler followed by `rebuild`: store the
     * filter, rebuild the graph and recompute the stats. Whatever the filter,
     * the organisation count shown is the number of organisations.
     */
    method ChangeFilter(filterType: string, orgs: seq<Organization>)
      returns (displayOrgCount: nat, linkCount: nat, clusterCount: nat)
      modifies this
      ensures currentFilter == filterType
      ensures nodes == BuildNodes(BuilderFor(filterType), orgs) && links == BuildLinks(BuilderFor(filterType), orgs)
      ensures currentView == BuildView(BuilderFor(filterType))
      ensures heatmapOrgCount == if filterType == "heatmap" then Some(|orgs|) else old(heatmapOrgCount)
      ensures displayOrgCount == |orgs| && linkCount == |links|
      ensures clusterCount == |nodes| - |orgs| * (if filterType == "heatmap" then 5 else 1)
    {
      currentFilter := filterType;
      BuildNetworkData(filterType, orgs);
      displayOrgCount, linkCount, clusterCount := UpdateStats();
      DisplayedCountIsOrganizations(BuilderFor(filterType), orgs, old(heatmapOrgCount));
      OneOrganizationNodeEach(BuilderFor(filterType), orgs);
    }
  }
}

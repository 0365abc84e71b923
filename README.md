# Network Navigator — a Dafny model of its graph builders and view selections

Network Navigator is a browser dashboard over a dataset of Japanese
independent administrative agencies and special corporations. For each
organisation it records the legal category, size, vendors, culture, bidding
style, AI adoption and investment capacity. It draws them as a force graph
under one of several groupings and offers extra views: a treemap, a bubble
chart, top-10 rankings and a five-axis "AI proposal" evaluation.

This project models the logic under those pictures:

- `common.dfy` (module `Common`): the JavaScript built-ins the code relies on.
  These are substring search (`includes`), `filter`, `map`, an insertion-ordered
  `Set` and stable `sort`, each with its laws, plus the top-n selection.
- `rules.dfy` (module `Rules`) models data.js:
  - the organisation record and the fixed id lists;
  - `classifyCulture` and `normalizeBidStyle`;
  - the five-axis scorer `calculateEvaluationScores`;
  - the rank thresholds of `getEvaluationRank`.
- `network.dfy` (module `Network`) specifies the graph each `build*`
  method of script.js produces. It covers nodes, links, vendor counts, the
  timeline year, heatmap cells and the node counts `updateStats` reports.
  It also holds the lemmas about those graphs.
- `navigator.dfy` (module `Navigator`) models the class
  `NetworkNavigator`. Its fields `nodes`, `links`, `currentFilter`,
  `currentView` and the heatmap organisation count are updated in place by
  methods with loops, as the source does. Each method is proved to leave
  exactly the graph `Network` describes.
- `views.dfy` (module `Views`) models the data shaping of views.js:
  - `getFilteredData`;
  - the category hierarchy behind the treemap and bubble chart;
  - the two ranking tables and the investment badge;
  - the ordered evaluation cards and their score-bar width.

An absent optional text field is the empty string in this model. An absent
vendor list is the empty list. The source reads these fields with a
fallback (`|| ""`, `|| []`, `?.includes(...)` with non-empty keywords), so
it treats absence and emptiness alike. The fields it reads without a
fallback (`id`, `category`, `assets`, `employees`) are always present here;
see "## Left out".

## Model

| member | source | states |
|---|---|---|
| Rules.ClassifyCulture | data.js:428-438 | the result is always one of the five culture category ids |
| Rules.FirstMatchingSpec | data.js:430-436 | the search returns the id of the first category, in list order, that has a keyword contained in the text; it finds nothing exactly when no keyword of any category occurs |
| Rules.ClassifyCultureFirstMatch | data.js:428-438 | the culture type is the first category in list order with a matching keyword, and "堅実型" when no keyword matches |
| Rules.ClassifyEmptyCulture | data.js:429 | an absent or empty culture text is classified "堅実型" |
| Rules.NormalizeBidStyle | data.js:441-448 | the result is one of the five bid-style ids; empty input gives "一般競争入札"; each other id is returned exactly when its keyword occurs and no earlier keyword in the chain does |
| Rules.NegotiatedWinsOverOpenTender | data.js:443 | a mixed style naming both open tendering and negotiated contracts normalises to "随意契約中心" |
| Rules.Physical | data.js:466-474 | the fit axis is 2, 3 or 5, and 5 whenever the business text names finance, pensions, screening, insurance, fund management or guarantees |
| Rules.Urgency | data.js:477-486 | the urgency axis is 1, 3, 4 or 5 |
| Rules.NttAffinity | data.js:488-508 | the affinity axis is between 2 and 5, and 5 whenever some vendor string contains "NTT" |
| Rules.ItLiteracy | data.js:510-525 | the IT axis stays within -1..5; the floor of -3 is never reached |
| Rules.Budget | data.js:527-541 | the budget axis stays within 0..5, and exceeds the investment-based value exactly for a surplus above 500 below the cap |
| Rules.EvaluationScores | data.js:462-548 | the total is the sum of the five axes, each axis is in its range, and the total lies in 4..25 |
| Rules.LowestTotalWitness | data.js:462-548 | the lower bound 4 on the total is reached |
| Rules.BudgetOneReachable | data.js:527-541 | an investment outside the three levels with a surplus above 500 gives budget 1 |
| Rules.EvaluationRank | data.js:551-557 | S exactly for totals of 20 or more, A for 16-19, B for 12-15, C for 8-11, D for 7 or less |
| Rules.EvaluationRankMonotone | data.js:551-557 | a larger total never gets a lower rank |
| Rules.CultureIdsMatchCategories | data.js:391-397 | the culture id list, taken from the categories, is the five ids 堅実型, 先進型, 専門型, 国際型, 地域密着型 in list order, position by position |
| Network.TimelineYear | script.js:224-234 | the timeline year lies in 2024..2028; text naming 2024 or completion gives 2024; 2028 comes only from the fallback at an index of 3 mod 4 |
| Network.TimelineNodesAt | script.js:224-256 | timeline node k belongs to organisation k and carries the year chosen for its renewal text and index |
| Network.HeatmapCells | script.js:269-336 | the heatmap has five cells per organisation |
| Network.HeatmapCellAt | script.js:282-336 | cell k belongs to organisation k / 5 and metric k mod 5, with id `${org.id}-${metric}` |
| Network.OrgNodesAt | script.js:176-196 | node k of the scatter plot belongs to organisation k |
| Network.LabelLinksFromHubs | script.js:497-520 | a label link is added only when the hub lookup succeeds, and runs from that hub to an organisation of the list (the category, investment and AI builders repeat this loop) |
| Network.LabelLinksTotal | script.js:497-520 | when every label names a hub, organisation k gets exactly its own hub link, in order |
| Network.BidStyleLinksTotal | script.js:497-520 | in the bid-style network every organisation is linked to the hub of its normalised style |
| Network.ActiveVendorsSpec | script.js:530-537 | the active vendors are exactly the listed major vendors some organisation uses, each once (buildVendorNetwork collects them the same way) |
| Network.ActiveVendorLinks | script.js:564-573 | every vendor link of the "all" and vendor networks starts at an active major vendor |
| Network.VendorLinksSpec | script.js:451-460 | a vendor link runs from a vendor that passes the hub test to an organisation that lists it |
| Network.HubVendorsMembers | script.js:413-423 | the vendor hubs are exactly the vendors that occur at least twice across all vendor lists |
| Network.HubVendorsDistinct | script.js:421-423 | each hub vendor appears once |
| Network.HubVendorsOrder | script.js:421-423 | hubs are ordered by non-increasing count; equal counts keep first-occurrence order |
| Network.VendorHubNodesAt | script.js:425-434 | hub node k carries its vendor's occurrence count and radius 20 + 2 × count |
| Network.SharedCountIsFilterLength | script.js:466-468 | the width counted for two organisations is the length of the filtered list: the first one's vendor entries that the second lists and that occur at least twice overall |
| Network.RowLinksSpec | script.js:465-479 | organisation i is linked to a later organisation m exactly when they share a hub vendor entry, with width the number of shared entries |
| Network.PairLinksSpec | script.js:464-480 | every organisation link of the vendor-hub network is the link of an index pair a < b sharing at least one hub vendor entry, with width the number shared, and every such pair's link is present |
| Network.CultureLinksSpec | script.js:356-404 | the culture builder only appends links, never joins an unordered pair of organisations twice, and links two organisations only when they differ and share at least two vendor entries |
| Network.CultureLinksComplete | script.js:381-403 | every pair of different organisations whose vendor lists share at least two entries ends up connected by some link, in one direction or the other; that link may be a culture hub link or one already present, as with the source's `find`, and Network.CultureLinksSpec adds that at most one organisation link joins any pair |
| Network.CultureHubLinks | script.js:370-379 | every organisation is linked to the hub of its culture type |
| Network.BuilderFor | script.js:112-145 | the "all" builder is chosen exactly for an unrecognised filter name; the heatmap builder exactly for "heatmap" |
| Network.CountsPartition | script.js:1323-1326 | organisation and cell nodes plus cluster nodes are all the nodes |
| Network.OneOrganizationNodeEach | script.js:104-146 | every builder adds one organisation node per organisation and no cell; the heatmap instead adds five cells per organisation and no organisation node |
| Network.DisplayedCountIsOrganizations | script.js:1322-1336 | whatever the filter, the organisation count shown equals the number of organisations |
| Navigator.CountVendors | script.js:413-419 | the counting loops build the occurrence count of every vendor, with keys in first-insertion order |
| Navigator.RankHubVendors | script.js:413-423 | the hub list built from the counts is the specified hub list |
| Navigator.CollectActiveVendors | script.js:530-537 | the `Set` built by the loops holds exactly the active major vendors, once each, in insertion order |
| Navigator.NetworkNavigator.constructor | script.js:5-28 | the navigator starts on the "all" filter and the network view, with the "all" graph built |
| Navigator.NetworkNavigator.BuildNetworkData | script.js:104-146 | both lists are emptied and then hold exactly the graph of the builder the filter selects; the view is set; the heatmap count changes only for the heatmap |
| Navigator.NetworkNavigator.BuildScatterData | script.js:151-197 | sets the scatter view and appends one organisation node per organisation |
| Navigator.NetworkNavigator.BuildTimelineData | script.js:200-259 | sets the timeline view and appends one node per organisation with its year |
| Navigator.NetworkNavigator.BuildHeatmapData | script.js:262-339 | sets the heatmap view, appends the five cells of each organisation and records the organisation count |
| Navigator.NetworkNavigator.AddCells | script.js:282-335 | appends one heatmap cell per metric for one organisation, in metric order |
| Navigator.NetworkNavigator.BuildCultureNetwork | script.js:342-405 | appends the culture hubs and organisation nodes, and extends the links as the culture specification says |
| Navigator.NetworkNavigator.AddCultureOrganization | script.js:355-403 | appends the organisation node, the link from its culture hub, and then its peer links as the culture specification says |
| Navigator.NetworkNavigator.AddCulturePeers | script.js:382-403 | the inner loop adds a link to each other organisation sharing two vendors that is not yet connected either way |
| Navigator.NetworkNavigator.BuildVendorHubNetwork | script.js:408-481 | appends the ranked vendor hubs, the organisation nodes, the vendor links and the organisation-pair links |
| Navigator.NetworkNavigator.AddOrganizationsWithVendorLinks | script.js:436-461 | appends one organisation node per organisation and, per organisation, a link from each of its vendors that passes the hub test |
| Navigator.NetworkNavigator.AddPeerLink | script.js:466-478 | appends a link between two organisations exactly when they share a hub vendor entry, with width the number shared |
| Navigator.NetworkNavigator.AddRowLinks | script.js:465-479 | appends the links from organisation i to every later organisation, in order |
| Navigator.NetworkNavigator.AddPeerLinks | script.js:464-480 | appends the organisation-pair links for every i < j |
| Navigator.NetworkNavigator.BuildBidStyleNetwork | script.js:484-521 | appends the bid-style hubs, the organisation nodes and one link per organisation to its normalised style |
| Navigator.NetworkNavigator.AddLabelledOrganizations | script.js:497-520 | appends one node per organisation and a link from its label's hub exactly when the label is a hub id |
| Navigator.NetworkNavigator.BuildAllNetwork | script.js:525-575 | appends a radius-25 hub per active major vendor, the organisation nodes and the active-vendor links |
| Navigator.NetworkNavigator.BuildVendorNetwork | script.js:577-623 | as the "all" network, with radius-30 hubs |
| Navigator.NetworkNavigator.BuildCategoryNetwork | script.js:625-660 | appends the category hubs, the organisation nodes and a link from each organisation's category hub |
| Navigator.NetworkNavigator.BuildInvestmentNetwork | script.js:662-697 | appends the investment-level hubs, the organisation nodes and the links from the matching level |
| Navigator.NetworkNavigator.BuildAiNetwork | script.js:699-734 | appends the AI-status hubs, the organisation nodes and the links from the matching status |
| Navigator.NetworkNavigator.UpdateStats | script.js:1322-1336 | returns the link count, the cluster count and the organisation count shown; organisation and cluster counts add up to the node count |
| Navigator.NetworkNavigator.ChangeFilter | script.js:1340-1344 | after a filter change and the rebuild that follows it the graph is the selected builder's, the heatmap count is recorded only for the heatmap filter and otherwise kept, the organisation count shown is the number of organisations, and the clusters are the remaining nodes |
| Views.FilteredData | views.js:9-16 | any filter other than 'financial' returns the data unchanged |
| Views.FinancialMembers | views.js:11-14 | the financial view keeps exactly the organisations whose id is listed, each as often as in the data |
| Views.FinancialOrder | views.js:14 | the financial view keeps the data order: filtering two halves and joining them equals filtering the whole |
| Views.MissingListShowsNothing | views.js:12-14 | without a list of financial institutions the financial view is empty |
| Views.HierarchyNames | views.js:33-47 | the groups are the categories that have organisations, in category-list order, and no group is empty |
| Views.HierarchyGroups | views.js:33-47 | every group is named by a listed category and holds that category's organisations in data order |
| Views.ChartHierarchies | views.js:33-47 | the treemap's groups are the populated categories in category-list order, each holding its category's organisations sized by assets; the bubble chart has the same groups sized by head count |
| Views.LeavesOfGroup | views.js:38-45 | every leaf of a group is an organisation of that group's category, named by its id and sized by assets or employees |
| Views.OrganizationPlaced | views.js:33-47 | every organisation of a listed category has its leaf in that category's group |
| Views.RankingSpec | views.js:366-370 | a ranking holds min(n, 10) organisations drawn from the data, largest first; no organisation left out is larger than one shown; ties keep data order |
| Views.RankingRowsSpec | views.js:384-413 | ranking rows are numbered 1..n, show their organisation's id and value, and get 'badge-high' exactly for '極めて高い' |
| Views.RenderedRankings | views.js:357-371 | both ranking tables of the page hold at most ten rows, sorted, numbered from 1 |
| Views.InvestmentBadge | views.js:411 | 'badge-high' exactly when the investment is '極めて高い', otherwise 'badge-medium' |
| Views.Abbreviate | views.js:401 | the shortened category is a prefix of at most six characters |
| Views.EvaluationCardsSpec | views.js:442-446 | one card per organisation, ordered by non-increasing total, ties in data order; each card carries its organisation's scores and rank |
| Views.ScorePercent | views.js:476-477 | the bar width satisfies width × 25 = total × 100 |
| Views.ScoreBarBounds | views.js:476-477 | every bar is between 16% and 100% wide, and wider for a higher total |
| Common.SortDescSpec | views.js:366 | the stable sort orders by non-increasing key and is a permutation of its input |
| Common.SortDescStable | views.js:366 | elements with equal keys keep their input order |
| Common.TopNSpec | views.js:366 | the first n of the sorted copy are ordered, drawn from the input, and outrank everything left out |

## Left out

- Rendering is not modelled. This covers SVG set-up, the force simulation, zoom, drag, tooltips, legends, event wiring, the D3 treemap/pack/hierarchy layouts, the radar chart and all colours. These are calls into D3 and the DOM, which are not part of this model.
- `calculateRadius`, the scatter and timeline pixel positions, heatmap cell geometry, normalised values and hues are left out. They are floating-point geometry (square roots, logarithms and scales) that does not feed any modelled decision. Node radii are kept only where they are constants or `20 + count * 2`.
- The random jitter of timeline positions (`Math.random`) is left out. Only the year choice is modelled.
- `exportAsImage` (canvas, blobs, downloads) is left out because it is I/O.
- The static dataset literal and the colour maps are left out. The id lists the rules answer into are kept as constants.
- Navigator.NetworkNavigator.BuildAllNetwork, BuildVendorNetwork and BuildCategoryNetwork read the global lists `window.majorVendors` and `window.categories` directly. The source passes the same lists as arguments. `buildVendorHubNetwork` ignores its `vendors` argument, so the model has none.
- Navigator.NetworkNavigator.ChangeFilter stands for the filter handler and `rebuild()`. Clearing the canvas, stopping the simulation, re-rendering and the legend update are left out.
- Rules.Organization leaves out a missing `profit`. Every organisation is given one, and a missing profit would fail the `> 500` test in the same way as a small one.
- Views.FilteredData takes the filter name and the financial-institution list as parameters. In the source they are the view's field and a global.
- The `nodeSize` selector is left out. It only changes radii.
- Rules.Organization always has `category`, `assets` and `employees`. In the source a missing `category` makes `substring` throw in the ranking table, and a missing size makes the ranking comparator return NaN. The model has no such failure or unordered case.
- Views.ScorePercent divides exactly over the reals. The source computes `(total / 25) * 100` in binary floating point, which is off in the last digit for some totals (7 gives 28.000000000000004, 14 gives 56.00000000000001), so the exact equation width × 25 = total × 100 holds for the model, not bit for bit for the source.
- Navigator.CountVendors and Network.HubVendorsOrder treat `vendorCounts` as a map whose keys come out in first-insertion order. This assumes no vendor name is integer-like (JavaScript lists such keys first, in ascending order) and none is a name every object inherits, such as "constructor" (its count would start from a function, so such a vendor never becomes a hub).
- Views.Abbreviate counts characters as Unicode code points, since strings are modelled as sequences of code points. JavaScript's `substring(0, 6)` counts UTF-16 code units, so for a category with a character outside the Basic Multilingual Plane the source keeps fewer characters or splits a surrogate pair. The categories used are all within that plane.

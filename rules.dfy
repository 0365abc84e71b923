/**
 * The organisation record and the classification and scoring rules of
 * data.js: culture classification, bid-style normalisation, the five-axis
 * evaluation scorer and the rank thresholds, together with the fixed id
 * lists they answer into.
 *
 * An optional text field that is absent in the dataset is the empty string
 * here, and absent vendors are the empty list: every rule below treats
 * absence and emptiness alike.
 */
module Rules {
  import opened Common

  /** One organisation of the dataset, restricted to the fields the modelled logic reads. */
  datatype Organization = Organization(
    id: string,
    category: string,
    employees: int,
    assets: int,
    profit: real,
    profitStatus: string,
    investment: string,
    business: string,
    culture: string,
    vendors: seq<string>,
    systemRenewal: string,
    bidStyle: string,
    ai: string
  )

  // ---------------------------------------------------------------------
  // Fixed id lists
  // ---------------------------------------------------------------------

  /** `majorVendors`. */
  const MajorVendors: seq<string> := [
    "NTTデータ", "日立製作所", "富士通", "NEC", "野村総研", "アクセンチュア",
    "日本IBM", "三菱電機", "アビームコンサルティング", "凸版印刷", "内田洋行", "インテック",
    "ソニーCSL", "PwC Japan", "EY新日本", "Salesforce", "IBM", "エクサウィザーズ",
    "ゆうちょ銀行", "かんぽ生命", "日立システムズ", "日立社会情報サービス"
  ]

  /** The ids of `categories` (the legal form of an organisation). */
  const CategoryIds: seq<string> := ["中期目標管理法人", "行政執行法人", "国立研究開発法人", "特殊会社", "特殊法人"]

  /** The ids of `investmentLevels`. */
  const InvestmentLevelIds: seq<string> := ["極めて高い", "高", "中"]

  /** The ids of `aiStatus`. */
  const AiStatusIds: seq<string> := ["あり", "検討中", "なし"]

  datatype CultureCategory = CultureCategory(id: string, keywords: seq<string>)

  /** `cultureCategories`, in the order they are tried. */
  const CultureCategories: seq<CultureCategory> := [
    CultureCategory("堅実型", ["堅実", "確実性重視"]),
    CultureCategory("先進型", ["先進的", "DX推進に積極的", "グローバル志向"]),
    CultureCategory("専門型", ["専門性重視", "独立性"]),
    CultureCategory("国際型", ["国際性", "公共性"]),
    CultureCategory("地域密着型", ["地域密着"])
  ]

  function CategoryId(c: CultureCategory): string { c.id }

  /** The ids of `cultureCategories` (`cat.id` for each category, in order). */
  const CultureIds: seq<string> := Map(CultureCategories, CategoryId)

  /** The ids of `bidStyles`. */
  const BidStyleIds: seq<string> := ["一般競争入札", "総合評価方式", "企画競争", "随意契約中心", "価格競争中心"]

  lemma CultureIdsMatchCategories()
    ensures CultureIds == ["堅実型", "先進型", "専門型", "国際型", "地域密着型"]
    ensures forall k :: 0 <= k < |CultureIds| ==> CultureCategories[k].id == CultureIds[k]
  {
    forall k | 0 <= k < |CultureIds| ensures CultureCategories[k].id == CultureIds[k] {
      MapAt(CultureCategories, CategoryId, k);
    }
  }

  // ---------------------------------------------------------------------
  // classifyCulture
  // ---------------------------------------------------------------------

  /** Some keyword of the list is a substring of `culture` (the inner loop). */
  predicate AnyKeyword(keywords: seq<string>, culture: string) {
    exists k :: 0 <= k < |keywords| && Contains(culture, keywords[k])
  }

  /** The id of the first category, in list order, with a matching keyword (the outer loop). */
  function FirstMatching(cats: seq<CultureCategory>, culture: string): (r: Option<string>)
    ensures r.Some? ==> exists k :: 0 <= k < |cats| && cats[k].id == r.value
  {
    if cats == [] then None
    else if AnyKeyword(cats[0].keywords, culture) then Some(cats[0].id)
    else FirstMatching(cats[1..], culture)
  }

  /** `classifyCulture(org)`: the first matching category, or "堅実型" when none matches. */
  function ClassifyCulture(culture: string): (id: string)
    ensures id in CultureIds
  {
    CultureIdsMatchCategories();
    match FirstMatching(CultureCategories, culture)
    case Some(c) => c
    case None => "堅実型"
  }

  /** `FirstMatching` finds the first category with a matching keyword, and None only when none matches. */
  lemma {:induction false} FirstMatchingSpec(cats: seq<CultureCategory>, culture: string)
    ensures FirstMatching(cats, culture).None? <==>
              forall k :: 0 <= k < |cats| ==> !AnyKeyword(cats[k].keywords, culture)
    ensures FirstMatching(cats, culture).Some? ==>
              exists k :: 0 <= k < |cats| && cats[k].id == FirstMatching(cats, culture).value
                && AnyKeyword(cats[k].keywords, culture)
                && forall j :: 0 <= j < k ==> !AnyKeyword(cats[j].keywords, culture)
  {
    if cats != [] && !AnyKeyword(cats[0].keywords, culture) {
      FirstMatchingSpec(cats[1..], culture);
      var r := FirstMatching(cats[1..], culture);
      if r.Some? {
        var k :| 0 <= k < |cats[1..]| && cats[1..][k].id == r.value
                 && AnyKeyword(cats[1..][k].keywords, culture)
                 && forall j :: 0 <= j < k ==> !AnyKeyword(cats[1..][j].keywords, culture);
        assert cats[k + 1] == cats[1..][k];
        forall j | 0 <= j < k + 1 ensures !AnyKeyword(cats[j].keywords, culture) {
          if j > 0 { assert cats[j] == cats[1..][j - 1]; }
        }
      } else {
        forall k | 0 <= k < |cats| ensures !AnyKeyword(cats[k].keywords, culture) {
          if k > 0 { assert cats[k] == cats[1..][k - 1]; }
        }
      }
    }
  }

  /**
   * The culture type is the id of the first category in list order that has
   * a keyword occurring in the text, or "堅実型" when no keyword occurs.
   */
  lemma ClassifyCultureFirstMatch(culture: string)
    ensures (forall k :: 0 <= k < |CultureCategories| ==> !AnyKeyword(CultureCategories[k].keywords, culture))
              ==> ClassifyCulture(culture) == "堅実型"
    ensures forall k :: 0 <= k < |CultureCategories|
              && AnyKeyword(CultureCategories[k].keywords, culture)
              && (forall j :: 0 <= j < k ==> !AnyKeyword(CultureCategories[j].keywords, culture))
              ==> ClassifyCulture(culture) == CultureCategories[k].id
  {
    FirstMatchingSpec(CultureCategories, culture);
    var r := FirstMatching(CultureCategories, culture);
    forall k | 0 <= k < |CultureCategories|
              && AnyKeyword(CultureCategories[k].keywords, culture)
              && (forall j :: 0 <= j < k ==> !AnyKeyword(CultureCategories[j].keywords, culture))
      ensures ClassifyCulture(culture) == CultureCategories[k].id
    {
      var m :| 0 <= m < |CultureCategories| && CultureCategories[m].id == r.value
                && AnyKeyword(CultureCategories[m].keywords, culture)
                && forall j :: 0 <= j < m ==> !AnyKeyword(CultureCategories[j].keywords, culture);
      assert m == k;
    }
  }

  /** No keyword of a list without empty keywords occurs in the empty text. */
  lemma NoKeywordInEmpty(keywords: seq<string>)
    requires forall j :: 0 <= j < |keywords| ==> keywords[j] != []
    ensures !AnyKeyword(keywords, "")
  {
    forall j | 0 <= j < |keywords| ensures !Contains("", keywords[j]) {
      EmptyContainsNothing(keywords[j]);
    }
  }

  /** An absent or empty culture text is "堅実型". */
  lemma ClassifyEmptyCulture()
    ensures ClassifyCulture("") == "堅実型"
  {
    forall k | 0 <= k < |CultureCategories| ensures !AnyKeyword(CultureCategories[k].keywords, "") {
      NoKeywordInEmpty(CultureCategories[k].keywords);
    }
    FirstMatchingSpec(CultureCategories, "");
  }

  // ---------------------------------------------------------------------
  // normalizeBidStyle
  // ---------------------------------------------------------------------

  /** `normalizeBidStyle(bidStyle)`: a priority chain of substring tests. */
  function NormalizeBidStyle(bidStyle: string): (r: string)
    ensures r in BidStyleIds
    ensures bidStyle == "" ==> r == "一般競争入札"
    ensures r == "随意契約中心" <==> bidStyle != "" && Contains(bidStyle, "随意契約")
    ensures r == "総合評価方式" <==> bidStyle != "" && !Contains(bidStyle, "随意契約") && Contains(bidStyle, "総合評価")
    ensures r == "企画競争" <==> bidStyle != "" && !Contains(bidStyle, "随意契約")
                                 && !Contains(bidStyle, "総合評価") && Contains(bidStyle, "企画競争")
    ensures r == "価格競争中心" <==> bidStyle != "" && !Contains(bidStyle, "随意契約") && !Contains(bidStyle, "総合評価")
                                 && !Contains(bidStyle, "企画競争") && Contains(bidStyle, "価格競争")
  {
    if bidStyle == "" then "一般競争入札"
    else if Contains(bidStyle, "随意契約") then "随意契約中心"
    else if Contains(bidStyle, "総合評価") then "総合評価方式"
    else if Contains(bidStyle, "企画競争") then "企画競争"
    else if Contains(bidStyle, "価格競争") then "価格競争中心"
    else "一般競争入札"
  }

  /** A mixed style naming both open tendering and negotiated contracts counts as negotiated. */
  lemma NegotiatedWinsOverOpenTender()
    ensures NormalizeBidStyle("一般競争入札・随意契約") == "随意契約中心"
  {
    ContainsWitness("一般競争入札・随意契約", "随意契約", 7);
  }

  // ---------------------------------------------------------------------
  // calculateEvaluationScores
  // ---------------------------------------------------------------------

  /** The five axis scores and their sum. */
  datatype Scores = Scores(physical: int, urgency: int, nttAffinity: int, itLiteracy: int, budget: int, total: int)

  /** The business text names finance, pensions, screening, insurance, fund management or guarantees. */
  predicate FinanceBusiness(business: string) {
    Contains(business, "金融") || Contains(business, "年金") || Contains(business, "審査") ||
    Contains(business, "保険") || Contains(business, "運用") || Contains(business, "保証")
  }

  /** Some vendor string contains "NTT" (the `nttVendors` list is not consulted by the test). */
  predicate HasNttVendor(vendors: seq<string>) {
    exists k :: 0 <= k < |vendors| && Contains(vendors[k], "NTT")
  }

  /** The budget axis before the profit adjustment, from the investment capacity alone. */
  function BaseBudget(investment: string): (b: int)
    ensures b in {0, 2, 4, 5}
  {
    if investment == "極めて高い" then 5
    else if investment == "高" then 4
    else if investment == "中" then 2
    else 0
  }

  function Min(a: int, b: int): int { if a <= b then a else b }
  function Max(a: int, b: int): int { if a >= b then a else b }

  /** Axis 1, fit: finance and clerical business first, exchange and education next, else low. */
  function Physical(business: string): (p: int)
    ensures p in {2, 3, 5}
    ensures FinanceBusiness(business) ==> p == 5
  {
    if FinanceBusiness(business) then 5
    else if Contains(business, "交流") || Contains(business, "教育") then 3
    else 2
  }

  /** Axis 2, urgency: a renewal under way first, then one in progress, then no AI with spare budget. */
  function Urgency(systemRenewal: string, ai: string, investment: string): (u: int)
    ensures u in {1, 3, 4, 5}
  {
    var r := systemRenewal;
    if Contains(r, "2025") || Contains(r, "刷新中") || Contains(r, "再構築") || Contains(r, "更新中") then 5
    else if Contains(r, "進行中") || Contains(r, "構築中") then 4
    else if ai == "なし" && investment != "中" then 3
    else 1
  }

  /** Axis 3, affinity: an NTT vendor first, then by legal form and business. */
  function NttAffinity(vendors: seq<string>, category: string, business: string): (n: int)
    ensures n in {2, 3, 4, 5}
    ensures HasNttVendor(vendors) ==> n == 5
  {
    if HasNttVendor(vendors) then 5
    else if category == "特殊法人" || category == "中期目標管理法人" then
      (if Contains(business, "年金") || Contains(business, "金融") then 5 else 4)
    else if category == "特殊会社" then
      (if Contains(business, "金融") || Contains(business, "保険") then 4 else 3)
    else 2
  }

  /**
   * Axis 4, IT literacy: from the AI status, raised by one for an advanced
   * culture (capped at 5) and lowered by two for a conservative one (floored at -3).
   */
  function ItLiteracy(ai: string, culture: string): (it: int)
    ensures -1 <= it <= 5
    ensures -3 <= it
  {
    var it0 := if ai == "あり" then 5 else if ai == "検討中" then 3 else 1;
    var it1 := if Contains(culture, "先進的") || Contains(culture, "DX推進") then Min(5, it0 + 1) else it0;
    if Contains(culture, "保守的") then Max(-3, it1 - 2) else it1
  }

  /** Axis 5, budget: from the investment capacity, plus one (capped at 5) for a surplus above 500. */
  function Budget(investment: string, profitStatus: string, profit: real): (b: int)
    ensures 0 <= b <= 5
    ensures b > BaseBudget(investment) <==> profitStatus == "黒字" && profit > 500.0 && BaseBudget(investment) < 5
  {
    var b0 := BaseBudget(investment);
    if profitStatus == "黒字" && profit > 500.0 then Min(5, b0 + 1) else b0
  }

  /** `calculateEvaluationScores(org)`. */
  function EvaluationScores(org: Organization): (s: Scores)
    ensures s.total == s.physical + s.urgency + s.nttAffinity + s.itLiteracy + s.budget
    ensures s.physical in {2, 3, 5} && s.urgency in {1, 3, 4, 5} && s.nttAffinity in {2, 3, 4, 5}
    ensures -1 <= s.itLiteracy <= 5 && 0 <= s.budget <= 5
    ensures 4 <= s.total <= 25
  {
    var physical := Physical(org.business);
    var urgency := Urgency(org.systemRenewal, org.ai, org.investment);
    var ntt := NttAffinity(org.vendors, org.category, org.business);
    var it := ItLiteracy(org.ai, org.culture);
    var budget := Budget(org.investment, org.profitStatus, org.profit);
    Scores(physical, urgency, ntt, it, budget, physical + urgency + ntt + it + budget)
  }

  // ---------------------------------------------------------------------
  // getEvaluationRank
  // ---------------------------------------------------------------------

  datatype Rank = S | A | B | C | D

  /** `getEvaluationRank(total)` without its colour: the rank letter and its caption. */
  datatype RankInfo = RankInfo(rank: Rank, caption: string)

  /** `getEvaluationRank(totalScore)`: the first threshold the total reaches. */
  function EvaluationRank(total: int): (r: RankInfo)
    ensures r.rank == S <==> total >= 20
    ensures r.rank == A <==> 16 <= total <= 19
    ensures r.rank == B <==> 12 <= total <= 15
    ensures r.rank == C <==> 8 <= total <= 11
    ensures r.rank == D <==> total <= 7
  {
    if total >= 20 then RankInfo(S, "最優先")
    else if total >= 16 then RankInfo(A, "要攻略")
    else if total >= 12 then RankInfo(B, "検討")
    else if total >= 8 then RankInfo(C, "様子見")
    else RankInfo(D, "静観")
  }

  /** Position of a rank from the bottom: D is 0, S is 4. */
  function RankLevel(r: Rank): (n: nat)
    ensures n <= 4
  {
    match r
    case D => 0
    case C => 1
    case B => 2
    case A => 3
    case S => 4
  }

  /** A larger total never yields a lower rank. */
  lemma EvaluationRankMonotone(t1: int, t2: int)
    requires t1 <= t2
    ensures RankLevel(EvaluationRank(t1).rank) <= RankLevel(EvaluationRank(t2).rank)
  {
  }

  /** The lower bound 4 on the total is reached: no AI status, no investment level, a conservative culture. */
  lemma LowestTotalWitness()
    ensures EvaluationScores(Organization("x", "", 0, 0, 0.0, "", "", "", "保守的", [], "", "", "")).total == 4
  {
    var org := Organization("x", "", 0, 0, 0.0, "", "", "", "保守的", [], "", "", "");
    ContainsWitness("保守的", "保守的", 0);
    assert !FinanceBusiness("") by {
      EmptyContainsNothing("金融"); EmptyContainsNothing("年金"); EmptyContainsNothing("審査");
      EmptyContainsNothing("保険"); EmptyContainsNothing("運用"); EmptyContainsNothing("保証");
    }
    EmptyContainsNothing("交流"); EmptyContainsNothing("教育");
    EmptyContainsNothing("2025"); EmptyContainsNothing("刷新中"); EmptyContainsNothing("再構築");
    EmptyContainsNothing("更新中"); EmptyContainsNothing("進行中"); EmptyContainsNothing("構築中");
    assert !Contains("保守的", "先進的") by {
      forall i | 0 <= i <= 3 ensures !OccursAt("保守的", "先進的", i) {
        if i == 0 { assert "保守的"[0] != "先進的"[0]; }
      }
    }
    assert !Contains("保守的", "DX推進") by {
      forall i | 0 <= i <= 3 ensures !OccursAt("保守的", "DX推進", i) { }
    }
  }

  /** An organisation outside the three investment levels that makes a large surplus has budget 1. */
  lemma BudgetOneReachable(org: Organization)
    requires org.investment !in InvestmentLevelIds
    requires org.profitStatus == "黒字" && org.profit > 500.0
    ensures EvaluationScores(org).budget == 1
  {
  }
}

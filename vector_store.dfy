/**
  The retrieval layer over the competitor-intelligence dataset: the
  documents built from every insight and every proposed action, the
  lazily created semantic index, and the retrieval strategies that
  filter, rank and cut the index's candidates.

  The embedding index is an oracle: a `Store` answers a query with at
  most `n` documents of the corpus it was built from, or fails.
 */
module VectorStore {
  import opened Wrappers
  import opened Strings
  import opened Sequences
  import opened OrionData

  // ---------------------------------------------------------------------------
  // Documents
  // ---------------------------------------------------------------------------

  /** The quick-win category of an action, as its metadata names it. */
  datatype QuickWinCategory = HighValueQuickWin | QuickWin | HighValue | LowEffort | Standard

  function CategoryName(c: QuickWinCategory): string {
    match c
    case HighValueQuickWin => "high-value-quick-win"
    case QuickWin => "quick-win"
    case HighValue => "high-value"
    case LowEffort => "low-effort"
    case Standard => "standard"
  }

  /**
    The category ladder: the first rule that matches decides. Each category
    is also described on its own, as the region of (value, effort) scores
    the earlier rules leave to it.
   */
  function Categorize(value: int, effort: int): (c: QuickWinCategory)
    ensures c == HighValueQuickWin <==> value >= 7 && effort <= 4
    ensures c == QuickWin <==> value == 6 && effort <= 3
    ensures c == HighValue <==> value >= 8 && effort >= 5
    ensures c == LowEffort <==> value <= 5 && effort <= 3
    ensures c == Standard <==> (value <= 6 && effort >= 4) || (value == 7 && effort >= 5)
  {
    if value >= 7 && effort <= 4 then HighValueQuickWin
    else if value >= 6 && effort <= 3 then QuickWin
    else if value >= 8 then HighValue
    else if effort <= 3 then LowEffort
    else Standard
  }

  /**
    A document of the corpus: its text, which the index embeds, and its
    metadata, which the strategies filter and rank on.
   */
  datatype Document =
    | InsightDoc(pageContent: string, company: string, homepage: string, title: string,
                 impact: Impact, proposedActions: seq<ProposedAction>, links: seq<string>)
    | ActionDoc(pageContent: string, company: string, homepage: string, insightTitle: string,
                insightSummary: string, impact: Impact, actionContent: string, value: int, effort: int,
                ratio: real, quickWinCategory: QuickWinCategory, actionIndex: nat, links: seq<string>)

  /** The `documentType` metadata entry. */
  function DocumentType(d: Document): string {
    if d.InsightDoc? then "insight" else "action"
  }

  /** One line of the numbered action list in an insight document. */
  function ActionLine(a: ProposedAction, index: nat): string {
    NatToString(index + 1) + ". " + a.content
    + " (Value: " + IntToString(a.value) + ", Effort: " + IntToString(a.effort) + ")"
  }

  function ActionLines(actions: seq<ProposedAction>): (r: seq<string>)
    ensures |r| == |actions|
    ensures forall j :: 0 <= j < |r| ==> r[j] == ActionLine(actions[j], j)
  {
    seq(|actions|, j requires 0 <= j < |actions| => ActionLine(actions[j], j))
  }

  /** The labelled fields of an insight document, up to the label of its links. */
  function InsightHead(x: AiInsight): string {
    "Company: " + x.company
    + "\nHomepage: " + x.homepage
    + "\nTitle: " + x.insight.title
    + "\nSummary: " + x.insight.summary
    + "\nImpact: " + ImpactName(x.impact)
    + "\nProposed Actions: " + Join(ActionLines(x.insight.proposedActions), "\n")
    + "\nLinks:"
  }

  /** The text of an insight document: the template, trimmed. */
  function InsightText(x: AiInsight): (r: string)
    ensures |InsightHead(x)| <= |r| && r[..|InsightHead(x)|] == InsightHead(x)
  {
    var head := InsightHead(x);
    var tail := " " + Join(x.links, ", ") + "\n  ";
    TrimKeepsCore("\n", head, tail);
    Trim("\n" + head + tail)
  }

  /** The document of an insight. */
  function InsightDocument(x: AiInsight): (d: Document)
    ensures d.InsightDoc? && DocumentType(d) == "insight"
    ensures d.company == x.company && d.title == x.insight.title && d.impact == x.impact
    ensures d.proposedActions == x.insight.proposedActions && d.links == x.links
    ensures d.pageContent == InsightText(x)
  {
    InsightDoc(InsightText(x), x.company, x.homepage, x.insight.title,
               x.impact, x.insight.proposedActions, x.links)
  }

  /** `value / effort`; a zero effort is given ratio 0 here (see README). */
  function RatioOf(value: int, effort: int): (r: real)
    ensures effort != 0 ==> r * (effort as real) == value as real
  {
    if effort == 0 then 0.0 else (value as real) / (effort as real)
  }

  /**
    The document of the action at `index` of an insight. `fixed2` renders a
    ratio with two decimals, as `toFixed(2)` does.
   */
  function ActionDocument(x: AiInsight, index: nat, fixed2: real -> string): (d: Document)
    requires index < |x.insight.proposedActions|
    ensures d.ActionDoc? && DocumentType(d) == "action"
    ensures var a := x.insight.proposedActions[index];
      && d.actionContent == a.content && d.value == a.value && d.effort == a.effort
      && d.ratio == RatioOf(a.value, a.effort)
      && d.quickWinCategory == Categorize(a.value, a.effort)
    ensures d.actionIndex == index
    ensures d.company == x.company && d.insightTitle == x.insight.title
    ensures d.impact == x.impact && d.links == x.links
  {
    var a := x.insight.proposedActions[index];
    var ratio := RatioOf(a.value, a.effort);
    var category := Categorize(a.value, a.effort);
    ActionDoc(ActionText(x, a, ratio, category, fixed2), x.company, x.homepage, x.insight.title, x.insight.summary, x.impact,
              a.content, a.value, a.effort, ratio, category, index, x.links)
  }

  /** The text of an action document: the template, trimmed. */
  function ActionText(x: AiInsight, a: ProposedAction, ratio: real, category: QuickWinCategory,
                      fixed2: real -> string): string
  {
    Trim(
      "\nAction: " + a.content
      + "\nCompany Context: " + x.company + " - " + x.insight.title
      + "\nInsight Summary: " + x.insight.summary
      + "\nValue Score: " + IntToString(a.value) + "/10"
      + "\nEffort Score: " + IntToString(a.effort) + "/10"
      + "\nValue-to-Effort Ratio: " + fixed2(ratio)
      + "\nImpact Level: " + ImpactName(x.impact)
      + "\nQuick Win Category: " + CategoryName(category)
      + "\nCompetitive Context: This action is based on analysis of " + x.company
      + "'s strategy and market positioning.\n    ")
  }

  /** The documents of an insight's actions, in action order. */
  function ActionDocsOf(x: AiInsight, fixed2: real -> string): (r: seq<Document>)
    ensures |r| == |x.insight.proposedActions|
    ensures forall j :: 0 <= j < |r| ==> r[j] == ActionDocument(x, j, fixed2)
  {
    seq(|x.insight.proposedActions|, j requires 0 <= j < |x.insight.proposedActions| => ActionDocument(x, j, fixed2))
  }

  function InsightDocs(data: seq<AiInsight>): (r: seq<Document>)
    ensures |r| == |data|
    ensures forall i :: 0 <= i < |r| ==> r[i] == InsightDocument(data[i])
  {
    seq(|data|, i requires 0 <= i < |data| => InsightDocument(data[i]))
  }

  function ActionDocsFn(fixed2: real -> string): AiInsight -> seq<Document> {
    (x: AiInsight) => ActionDocsOf(x, fixed2)
  }

  /** All insight documents, then the `flatMap` of every insight's action documents. */
  function BuildCorpus(data: seq<AiInsight>, fixed2: real -> string): seq<Document> {
    InsightDocs(data) + FlatMap(data, ActionDocsFn(fixed2))
  }

  /** As many action documents as actions, for any list of insights. */
  lemma ActionDocsLength(data: seq<AiInsight>, fixed2: real -> string)
    ensures |FlatMap(data, ActionDocsFn(fixed2))| == |AllActions(data)|
  {
    FlatMapLengths(data, ActionDocsFn(fixed2), ActionsOf);
  }

  /**
    The corpus holds one document per insight and one per action: first
    every insight's document in data order, then every action's document.
   */
  lemma CorpusLayout(data: seq<AiInsight>, fixed2: real -> string)
    ensures |BuildCorpus(data, fixed2)| == |data| + |AllActions(data)|
    ensures forall i :: 0 <= i < |data| ==> BuildCorpus(data, fixed2)[i] == InsightDocument(data[i])
    ensures forall i :: |data| <= i < |BuildCorpus(data, fixed2)| ==> BuildCorpus(data, fixed2)[i].ActionDoc?
  {
    ActionDocsLength(data, fixed2);
    var corpus := BuildCorpus(data, fixed2);
    forall i | |data| <= i < |corpus|
      ensures corpus[i].ActionDoc?
    {
      FlatMapMember(data, ActionDocsFn(fixed2), i - |data|);
    }
  }

  /**
    Action documents come insight by insight and, within an insight, in
    action order: the action at `j` of insight `i` follows the insight
    documents and the actions of the insights before `i`.
   */
  lemma CorpusActionAt(data: seq<AiInsight>, i: nat, j: nat, fixed2: real -> string)
    requires i < |data| && j < |data[i].insight.proposedActions|
    ensures |data| + |AllActions(data[..i])| + j < |BuildCorpus(data, fixed2)|
    ensures BuildCorpus(data, fixed2)[|data| + |AllActions(data[..i])| + j] == ActionDocument(data[i], j, fixed2)
  {
    var f := ActionDocsFn(fixed2);
    FlatMapAtAfter(InsightDocs(data), data, i, j, f);
    ActionDocsLength(data[..i], fixed2);
    assert f(data[i])[j] == ActionDocument(data[i], j, fixed2);
  }

  /** The (value, effort) scores of an action document; an insight document has none. */
  function DocScore(d: Document): (int, int) {
    if d.ActionDoc? then (d.value, d.effort) else (0, 0)
  }

  lemma ActionDocScores(x: AiInsight, fixed2: real -> string)
    ensures Map(ActionDocsOf(x, fixed2), DocScore) == InsightScores(x)
  {
    var actions := x.insight.proposedActions;
    ScoresLength(actions);
    forall j | 0 <= j < |actions|
      ensures Map(ActionDocsOf(x, fixed2), DocScore)[j] == InsightScores(x)[j]
    {
      ScoresAt(actions, j);
    }
  }

  lemma NoInsightIsQuickWin(data: seq<AiInsight>)
    ensures Filter(InsightDocs(data), QuickWinFilter(6, 4)) == []
  {
    var insightDocs := InsightDocs(data);
    forall d | d in insightDocs
      ensures !QuickWinFilter(6, 4)(d)
    {
      var i :| 0 <= i < |insightDocs| && insightDocs[i] == d;
    }
    FilterNone(insightDocs, QuickWinFilter(6, 4));
  }

  lemma ActionQuickWinScores(data: seq<AiInsight>, fixed2: real -> string)
    ensures Map(Filter(FlatMap(data, ActionDocsFn(fixed2)), QuickWinFilter(6, 4)), DocScore)
         == Filter(FlatMap(data, InsightScores), QualifiesAsQuickWin)
  {
    var f := ActionDocsFn(fixed2);
    FilterMap(FlatMap(data, f), DocScore, QuickWinFilter(6, 4), QualifiesAsQuickWin);
    forall x | x in data
      ensures Map(f(x), DocScore) == InsightScores(x)
    {
      ActionDocScores(x, fixed2);
    }
    MapFlatMap(data, f, DocScore, InsightScores);
  }

  /**
    The quick wins found in a corpus (value at least 6, effort at most 4) are
    the action documents of the actions that qualify, in corpus order.
   */
  lemma CorpusQuickWinDocs(data: seq<AiInsight>, fixed2: real -> string)
    ensures Map(Filter(BuildCorpus(data, fixed2), QuickWinFilter(6, 4)), DocScore)
         == Filter(Scores(AllActions(data)), QualifiesAsQuickWin)
  {
    FilterConcat(InsightDocs(data), FlatMap(data, ActionDocsFn(fixed2)), QuickWinFilter(6, 4));
    NoInsightIsQuickWin(data);
    ActionQuickWinScores(data, fixed2);
    ScoresByInsight(data);
  }

  /** Six actions of the dataset are quick wins under the search defaults (value 6, effort 4). */
  lemma DatasetQuickWins(fixed2: real -> string)
    ensures Map(Filter(BuildCorpus(OrionInsights, fixed2), QuickWinFilter(6, 4)), DocScore)
         == [(6, 3), (7, 4), (7, 3), (6, 4), (6, 4), (6, 4)]
  {
    CorpusQuickWinDocs(OrionInsights, fixed2);
    CorpusQuickWinScores();
  }

  /**
    Examples of the ladder: (8, 2) and (6, 4), and the dataset's actions
    (5, 2) of the ninth insight and (6, 3) of the first.
   */
  lemma CategoryExamples(fixed2: real -> string)
    ensures Categorize(8, 2) == HighValueQuickWin && Categorize(6, 4) == Standard
    ensures |OrionInsights[8].insight.proposedActions| == 3 && |OrionInsights[0].insight.proposedActions| == 3
    ensures ActionDocument(OrionInsights[8], 2, fixed2).quickWinCategory == LowEffort
    ensures ActionDocument(OrionInsights[0], 0, fixed2).quickWinCategory == QuickWin
  {
    InsightScores8();
    ScoresAt(Insight8.insight.proposedActions, 2);
    InsightScores0();
    ScoresAt(Insight0.insight.proposedActions, 0);
  }

  // ---------------------------------------------------------------------------
  // Retrieval strategies
  // ---------------------------------------------------------------------------

  /** The `valueToEffortRatio` sort key; only action documents reach the sort. */
  function Ratio(d: Document): real {
    if d.ActionDoc? then d.ratio else 0.0
  }

  /** The `value` sort key. */
  function Value(d: Document): real {
    if d.ActionDoc? then d.value as real else 0.0
  }

  function QuickWinFilter(minValue: int, maxEffort: int): Document -> bool {
    (d: Document) => d.ActionDoc? && d.value >= minValue && d.effort <= maxEffort
  }

  function HighValueFilter(minValue: int): Document -> bool {
    (d: Document) => d.ActionDoc? && d.value >= minValue
  }

  function RatioFilter(minRatio: real): Document -> bool {
    (d: Document) => d.ActionDoc? && d.ratio >= minRatio
  }

  function CompanyFilter(companyName: string): Document -> bool {
    (d: Document) => ToLower(d.company) == ToLower(companyName)
  }

  function ImpactFilter(impact: string): Document -> bool {
    (d: Document) => ImpactName(d.impact) == impact
  }

  const QuickWinsQuery := "quick win high value low effort action competitive advantage"
  const HighValueQuery := "high value action competitive advantage strategic"
  const RatioQuery := "efficient action high return on investment competitive"

  /**
    `getQuickWins` on the index's candidates: the qualifying action
    documents, best ratio first, equal ratios in candidate order, cut to `k`.
   */
  function QuickWins(candidates: seq<Document>, k: nat, minValue: int, maxEffort: int): (r: seq<Document>)
    ensures forall d :: d in r ==> d in candidates && d.ActionDoc? && d.value >= minValue && d.effort <= maxEffort
    ensures SortedDesc(r, Ratio)
    ensures |r| == Min(k, |Filter(candidates, QuickWinFilter(minValue, maxEffort))|)
    ensures multiset(r) <= multiset(Filter(candidates, QuickWinFilter(minValue, maxEffort)))
    ensures forall v :: IsPrefix(WithKey(r, Ratio, v), WithKey(Filter(candidates, QuickWinFilter(minValue, maxEffort)), Ratio, v))
    ensures forall d, e :: multiset(r)[d] < multiset(Filter(candidates, QuickWinFilter(minValue, maxEffort)))[d] && e in r ==> Ratio(e) >= Ratio(d)
  {
    Top(candidates, QuickWinFilter(minValue, maxEffort), Ratio, k)
  }

  /** `getHighValueActions`: action documents of value at least `minValue`, highest value first, cut to `k`. */
  function HighValueActions(candidates: seq<Document>, k: nat, minValue: int): (r: seq<Document>)
    ensures forall d :: d in r ==> d in candidates && d.ActionDoc? && d.value >= minValue
    ensures SortedDesc(r, Value)
    ensures |r| == Min(k, |Filter(candidates, HighValueFilter(minValue))|)
    ensures multiset(r) <= multiset(Filter(candidates, HighValueFilter(minValue)))
    ensures forall v :: IsPrefix(WithKey(r, Value, v), WithKey(Filter(candidates, HighValueFilter(minValue)), Value, v))
    ensures forall d, e :: multiset(r)[d] < multiset(Filter(candidates, HighValueFilter(minValue)))[d] && e in r ==> Value(e) >= Value(d)
  {
    Top(candidates, HighValueFilter(minValue), Value, k)
  }

  /** `getActionsByValueEffortRatio`: action documents of ratio at least `minRatio`, best ratio first, cut to `k`. */
  function ActionsByRatio(candidates: seq<Document>, k: nat, minRatio: real): (r: seq<Document>)
    ensures forall d :: d in r ==> d in candidates && d.ActionDoc? && d.ratio >= minRatio
    ensures SortedDesc(r, Ratio)
    ensures |r| == Min(k, |Filter(candidates, RatioFilter(minRatio))|)
    ensures multiset(r) <= multiset(Filter(candidates, RatioFilter(minRatio)))
    ensures forall v :: IsPrefix(WithKey(r, Ratio, v), WithKey(Filter(candidates, RatioFilter(minRatio)), Ratio, v))
    ensures forall d, e :: multiset(r)[d] < multiset(Filter(candidates, RatioFilter(minRatio)))[d] && e in r ==> Ratio(e) >= Ratio(d)
  {
    Top(candidates, RatioFilter(minRatio), Ratio, k)
  }

  /**
    `getInsightsByCompany`: exactly the candidates, of either kind, whose
    company equals `companyName` up to case, in candidate order, uncut.
   */
  function ByCompany(candidates: seq<Document>, companyName: string): (r: seq<Document>)
    ensures IsSubsequence(r, candidates)
    ensures forall d :: multiset(r)[d] == if ToLower(d.company) == ToLower(companyName) then multiset(candidates)[d] else 0
  {
    Filter(candidates, CompanyFilter(companyName))
  }

  /** `getInsightsByImpact`: exactly the candidates, of either kind, whose impact is named `impact`, in candidate order. */
  function ByImpact(candidates: seq<Document>, impact: string): (r: seq<Document>)
    ensures IsSubsequence(r, candidates)
    ensures forall d :: multiset(r)[d] == if ImpactName(d.impact) == impact then multiset(candidates)[d] else 0
  {
    Filter(candidates, ImpactFilter(impact))
  }

  /** Company names that differ only in case select the same documents. */
  lemma ByCompanyIgnoresCase(candidates: seq<Document>, a: string, b: string)
    requires ToLower(a) == ToLower(b)
    ensures ByCompany(candidates, a) == ByCompany(candidates, b)
  {
    FilterAgree(candidates, CompanyFilter(a), CompanyFilter(b));
  }

  /** An impact that is none of the three level names selects nothing. */
  lemma ByImpactUnknownLevel(candidates: seq<Document>, impact: string)
    requires impact != "high" && impact != "medium" && impact != "low"
    ensures ByImpact(candidates, impact) == []
  {
    var r := ByImpact(candidates, impact);
    assert multiset(r) == multiset{};
    assert |r| == |multiset(r)|;
  }

  // ---------------------------------------------------------------------------
  // The index and the module-level store
  // ---------------------------------------------------------------------------

  /** A built semantic index: `similaritySearch` and `similaritySearchWithScore`. */
  datatype Store = Store(
    search: (string, nat) -> Result<seq<Document>, string>,
    searchWithScore: (string, nat) -> Result<seq<(Document, real)>, string>)

  /** The index answers with at most `n` documents, all drawn from `docs`. */
  ghost predicate StoreOver(st: Store, docs: seq<Document>) {
    (forall q, n :: st.search(q, n).Success? ==>
       |st.search(q, n).value| <= n && forall d :: d in st.search(q, n).value ==> d in docs)
    && (forall q, n :: st.searchWithScore(q, n).Success? ==>
       |st.searchWithScore(q, n).value| <= n && forall p :: p in st.searchWithScore(q, n).value ==> p.0 in docs)
  }

  /** Building an index from documents, when it succeeds, indexes those documents. */
  ghost predicate BuilderSound(fromDocuments: seq<Document> -> Result<Store, string>) {
    forall docs :: fromDocuments(docs).Success? ==> StoreOver(fromDocuments(docs).value, docs)
  }

  /** The module-level `vectorStore` and the functions that use it. */
  class VectorStoreService {
    var vectorStore: Option<Store>
    const corpus: seq<Document>
    const fromDocuments: seq<Document> -> Result<Store, string>

    ghost predicate Valid()
      reads this
    {
      BuilderSound(fromDocuments) && (vectorStore.Some? ==> StoreOver(vectorStore.value, corpus))
    }

    /** The store the initialisation yields from the given state. */
    function Initialized(current: Option<Store>): Result<Store, string> {
      if current.Some? then Success(current.value) else fromDocuments(corpus)
    }

    /** The state the initialisation leaves. */
    function StoredAfter(current: Option<Store>): Option<Store> {
      var init := Initialized(current);
      if init.Success? then Some(init.value) else None
    }

    constructor(data: seq<AiInsight>, fromDocuments: seq<Document> -> Result<Store, string>, fixed2: real -> string)
      requires BuilderSound(fromDocuments)
      ensures Valid()
      ensures vectorStore == None
      ensures corpus == BuildCorpus(data, fixed2)
      ensures this.fromDocuments == fromDocuments
    {
      vectorStore := None;
      corpus := BuildCorpus(data, fixed2);
      this.fromDocuments := fromDocuments;
    }

    /**
      `initializeVectorStore`: builds the index over the corpus once; once
      set, the store is returned as it is and nothing is rebuilt.
     */
    method InitializeVectorStore() returns (r: Result<Store, string>)
      requires Valid()
      modifies this
      ensures Valid()
      ensures r == Initialized(old(vectorStore))
      ensures vectorStore == StoredAfter(old(vectorStore))
      ensures old(vectorStore).Some? ==> r == Success(old(vectorStore).value) && vectorStore == old(vectorStore)
      ensures r.Success? ==> StoreOver(r.value, corpus)
    {
      if vectorStore.Some? {
        return Success(vectorStore.value);
      }
      r := fromDocuments(corpus);
      if r.Success? {
        vectorStore := Some(r.value);
      }
    }

    /** The store a strategy works on: the current one, or a new one when none is set yet. */
    method Ready() returns (r: Result<Store, string>)
      requires Valid()
      modifies this
      ensures Valid()
      ensures r == Initialized(old(vectorStore))
      ensures vectorStore == StoredAfter(old(vectorStore))
      ensures r.Success? ==> StoreOver(r.value, corpus)
    {
      if vectorStore.None? {
        r := InitializeVectorStore();
      } else {
        r := Success(vectorStore.value);
      }
    }

    method GetQuickWins(k: nat, minValue: int, maxEffort: int) returns (r: Result<seq<Document>, string>)
      requires Valid()
      modifies this
      ensures Valid() && vectorStore == StoredAfter(old(vectorStore))
      ensures Initialized(old(vectorStore)).Failure? ==> r == Failure(Initialized(old(vectorStore)).error)
      ensures Initialized(old(vectorStore)).Success? ==>
        var found := Initialized(old(vectorStore)).value.search(QuickWinsQuery, 20);
        r == if found.Success? then Success(QuickWins(found.value, k, minValue, maxEffort)) else Failure(found.error)
      ensures r.Success? ==> |r.value| <= k && forall d :: d in r.value ==> d in corpus
    {
      var ready := Ready();
      if ready.Failure? {
        return Failure(ready.error);
      }
      var found := ready.value.search(QuickWinsQuery, 20);
      if found.Failure? {
        return Failure(found.error);
      }
      r := Success(QuickWins(found.value, k, minValue, maxEffort));
    }

    method GetHighValueActions(k: nat, minValue: int) returns (r: Result<seq<Document>, string>)
      requires Valid()
      modifies this
      ensures Valid() && vectorStore == StoredAfter(old(vectorStore))
      ensures Initialized(old(vectorStore)).Failure? ==> r == Failure(Initialized(old(vectorStore)).error)
      ensures Initialized(old(vectorStore)).Success? ==>
        var found := Initialized(old(vectorStore)).value.search(HighValueQuery, 20);
        r == if found.Success? then Success(HighValueActions(found.value, k, minValue)) else Failure(found.error)
      ensures r.Success? ==> |r.value| <= k && forall d :: d in r.value ==> d in corpus
    {
      var ready := Ready();
      if ready.Failure? {
        return Failure(ready.error);
      }
      var found := ready.value.search(HighValueQuery, 20);
      if found.Failure? {
        return Failure(found.error);
      }
      r := Success(HighValueActions(found.value, k, minValue));
    }

    method GetActionsByValueEffortRatio(k: nat, minRatio: real) returns (r: Result<seq<Document>, string>)
      requires Valid()
      modifies this
      ensures Valid() && vectorStore == StoredAfter(old(vectorStore))
      ensures Initialized(old(vectorStore)).Failure? ==> r == Failure(Initialized(old(vectorStore)).error)
      ensures Initialized(old(vectorStore)).Success? ==>
        var found := Initialized(old(vectorStore)).value.search(RatioQuery, 30);
        r == if found.Success? then Success(ActionsByRatio(found.value, k, minRatio)) else Failure(found.error)
      ensures r.Success? ==> |r.value| <= k && forall d :: d in r.value ==> d in corpus
    {
      var ready := Ready();
      if ready.Failure? {
        return Failure(ready.error);
      }
      var found := ready.value.search(RatioQuery, 30);
      if found.Failure? {
        return Failure(found.error);
      }
      r := Success(ActionsByRatio(found.value, k, minRatio));
    }

    method PerformSimilaritySearch(query: string, k: nat) returns (r: Result<seq<Document>, string>)
      requires Valid()
      modifies this
      ensures Valid() && vectorStore == StoredAfter(old(vectorStore))
      ensures Initialized(old(vectorStore)).Failure? ==> r == Failure(Initialized(old(vectorStore)).error)
      ensures Initialized(old(vectorStore)).Success? ==> r == Initialized(old(vectorStore)).value.search(query, k)
      ensures r.Success? ==> |r.value| <= k && forall d :: d in r.value ==> d in corpus
    {
      var ready := Ready();
      if ready.Failure? {
        return Failure(ready.error);
      }
      r := ready.value.search(query, k);
    }

    method PerformSimilaritySearchWithScore(query: string, k: nat) returns (r: Result<seq<(Document, real)>, string>)
      requires Valid()
      modifies this
      ensures Valid() && vectorStore == StoredAfter(old(vectorStore))
      ensures Initialized(old(vectorStore)).Failure? ==> r == Failure(Initialized(old(vectorStore)).error)
      ensures Initialized(old(vectorStore)).Success? ==> r == Initialized(old(vectorStore)).value.searchWithScore(query, k)
      ensures r.Success? ==> |r.value| <= k && forall p :: p in r.value ==> p.0 in corpus
    {
      var ready := Ready();
      if ready.Failure? {
        return Failure(ready.error);
      }
      r := ready.value.searchWithScore(query, k);
    }

    method GetInsightsByCompany(companyName: string) returns (r: Result<seq<Document>, string>)
      requires Valid()
      modifies this
      ensures Valid() && vectorStore == StoredAfter(old(vectorStore))
      ensures Initialized(old(vectorStore)).Failure? ==> r == Failure(Initialized(old(vectorStore)).error)
      ensures Initialized(old(vectorStore)).Success? ==>
        var found := Initialized(old(vectorStore)).value.search("company: " + companyName, 20);
        r == if found.Success? then Success(ByCompany(found.value, companyName)) else Failure(found.error)
      ensures r.Success? ==> |r.value| <= 20 && forall d :: d in r.value ==> d in corpus
    {
      var ready := Ready();
      if ready.Failure? {
        return Failure(ready.error);
      }
      var found := ready.value.search("company: " + companyName, 20);
      if found.Failure? {
        return Failure(found.error);
      }
      r := Success(ByCompany(found.value, companyName));
      SubsequenceMembers(r.value, found.value);
    }

    method GetInsightsByImpact(impact: string) returns (r: Result<seq<Document>, string>)
      requires Valid()
      modifies this
      ensures Valid() && vectorStore == StoredAfter(old(vectorStore))
      ensures Initialized(old(vectorStore)).Failure? ==> r == Failure(Initialized(old(vectorStore)).error)
      ensures Initialized(old(vectorStore)).Success? ==>
        var found := Initialized(old(vectorStore)).value.search("impact: " + impact, 20);
        r == if found.Success? then Success(ByImpact(found.value, impact)) else Failure(found.error)
      ensures r.Success? ==> |r.value| <= 20 && forall d :: d in r.value ==> d in corpus
    {
      var ready := Ready();
      if ready.Failure? {
        return Failure(ready.error);
      }
      var found := ready.value.search("impact: " + impact, 20);
      if found.Failure? {
        return Failure(found.error);
      }
      r := Success(ByImpact(found.value, impact));
      SubsequenceMembers(r.value, found.value);
    }
  }
}

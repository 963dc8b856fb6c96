/**
  The retrieval-augmented agent: it reads the intent of a question, runs
  the matching retrieval strategy over the vector store, formats what it
  found into a system prompt, and streams the model's answer while keeping
  the conversation history.
 */
module AgentService {
  import opened Wrappers
  import opened Strings
  import opened Sequences
  import opened OrionData
  import opened VectorStore
  import opened Messages
  import opened ConversationHistory

  // ---------------------------------------------------------------------------
  // Query analysis
  // ---------------------------------------------------------------------------

  /** The search strategies; `GeneralSearch` is never chosen by the analysis. */
  datatype SearchType =
    | SimilaritySearch | CompanySearch | ImpactSearch | QuickWinsSearch
    | HighValueSearch | ValueEffortSearch | GeneralSearch

  function SearchTypeName(t: SearchType): string {
    match t
    case SimilaritySearch => "similarity"
    case CompanySearch => "company"
    case ImpactSearch => "impact"
    case QuickWinsSearch => "quickWins"
    case HighValueSearch => "highValue"
    case ValueEffortSearch => "valueEffort"
    case GeneralSearch => "general"
  }

  /** The strategies that rank action documents by their scores. */
  predicate IsRanking(t: SearchType) {
    t == QuickWinsSearch || t == HighValueSearch || t == ValueEffortSearch
  }

  /** What `analyzeQuery` returns: a strategy, an optional search term and an optional `k`. */
  datatype QueryAnalysis = QueryAnalysis(searchType: SearchType, searchTerm: Option<string>, k: Option<nat>)

  /** The phrases of a quick-wins question, in a lower-cased query. */
  predicate QuickWinIntent(q: string) {
    Contains(q, "quick win") || Contains(q, "low effort") || Contains(q, "easy")
    || (Contains(q, "today") && (Contains(q, "value") || Contains(q, "return")))
    || Contains(q, "immediate")
  }

  predicate HighValueIntent(q: string) {
    Contains(q, "high value") || Contains(q, "highest value") || Contains(q, "most valuable")
    || Contains(q, "biggest impact") || Contains(q, "strategic")
  }

  predicate ValueEffortIntent(q: string) {
    Contains(q, "roi") || Contains(q, "return on investment") || Contains(q, "efficient")
    || Contains(q, "bang for buck") || Contains(q, "value versus") || Contains(q, "value vs")
  }

  predicate RankingIntent(q: string) {
    QuickWinIntent(q) || HighValueIntent(q) || ValueEffortIntent(q)
  }

  /** The companies a question may name, in the order they are tried. */
  const Companies: seq<string> := ["digital guardian", "zscaler", "forcepoint"]

  /** The position of the first of `names`, from `from` on, that `q` contains. */
  function FirstContained(q: string, names: seq<string>, from: nat): (r: Option<nat>)
    requires from <= |names|
    decreases |names| - from
    ensures r.Some? ==> from <= r.value < |names| && Contains(q, names[r.value])
    ensures r.Some? ==> forall j :: from <= j < r.value ==> !Contains(q, names[j])
    ensures r.None? <==> forall j :: from <= j < |names| ==> !Contains(q, names[j])
  {
    if from == |names| then None
    else if Contains(q, names[from]) then Some(from)
    else FirstContained(q, names, from + 1)
  }

  /** The impact level a lower-cased query asks about, checked from high to low. */
  function ImpactTerm(q: string): (r: Option<string>)
    ensures r.Some? <==> Contains(q, "high impact") || Contains(q, "medium impact") || Contains(q, "low impact")
    ensures r == Some("high") <==> Contains(q, "high impact")
    ensures r == Some("medium") <==> !Contains(q, "high impact") && Contains(q, "medium impact")
    ensures r == Some("low") <==> !Contains(q, "high impact") && !Contains(q, "medium impact") && Contains(q, "low impact")
  {
    if Contains(q, "high impact") then Some("high")
    else if Contains(q, "medium impact") then Some("medium")
    else if Contains(q, "low impact") then Some("low")
    else None
  }

  /**
    `analyzeQuery`: the first rule whose phrases the lower-cased question
    contains decides. Each strategy is described by the questions the
    earlier rules leave to it.
   */
  function AnalyzeQuery(query: string): (a: QueryAnalysis)
    ensures a.searchType != GeneralSearch
    ensures var q := ToLower(query);
      && (a.searchType == QuickWinsSearch <==> QuickWinIntent(q))
      && (a.searchType == HighValueSearch <==> !QuickWinIntent(q) && HighValueIntent(q))
      && (a.searchType == ValueEffortSearch <==> !QuickWinIntent(q) && !HighValueIntent(q) && ValueEffortIntent(q))
      && (a.searchType == CompanySearch <==> !RankingIntent(q) && exists c :: c in Companies && Contains(q, c))
      && (a.searchType == ImpactSearch <==>
            && !RankingIntent(q) && (forall c :: c in Companies ==> !Contains(q, c))
            && ImpactTerm(q).Some?)
    ensures var q := ToLower(query);
      a.searchType == CompanySearch ==>
        exists i :: 0 <= i < |Companies| && a.searchTerm == Some(Companies[i]) && Contains(q, Companies[i])
                    && forall j :: 0 <= j < i ==> !Contains(q, Companies[j])
    ensures a.searchType == ImpactSearch ==> a.searchTerm == ImpactTerm(ToLower(query))
    ensures a.searchTerm.Some? <==> a.searchType == CompanySearch || a.searchType == ImpactSearch
    ensures a.k == if IsRanking(a.searchType) then Some(5)
                   else if a.searchType == SimilaritySearch then Some(3) else None
  {
    var q := ToLower(query);
    if QuickWinIntent(q) then QueryAnalysis(QuickWinsSearch, None, Some(5))
    else if HighValueIntent(q) then QueryAnalysis(HighValueSearch, None, Some(5))
    else if ValueEffortIntent(q) then QueryAnalysis(ValueEffortSearch, None, Some(5))
    else
      match FirstContained(q, Companies, 0)
      case Some(i) => QueryAnalysis(CompanySearch, Some(Companies[i]), None)
      case None =>
        match ImpactTerm(q)
        case Some(level) => QueryAnalysis(ImpactSearch, Some(level), None)
        case None => QueryAnalysis(SimilaritySearch, None, Some(3))
  }

  /** The analysis looks at the lower-cased question only, so lower-casing first changes nothing. */
  lemma {:induction false} AnalyzeIgnoresCase(query: string)
    ensures AnalyzeQuery(ToLower(query)) == AnalyzeQuery(query)
  {
    ToLowerIdempotent(query);
  }

  /** A phrase written in any case is found in the lower-cased question. */
  lemma {:induction false} PhraseInAnyCase(a: string, p: string, b: string, phrase: string)
    requires ToLower(p) == phrase
    ensures Contains(ToLower(a + p + b), phrase)
  {
    ToLowerConcat(a + p, b);
    ToLowerConcat(a, p);
    ContainsInfix(ToLower(a), phrase, ToLower(b));
  }

  /**
    "quick win" outranks every other rule: a question that says it, in any
    case and wherever, asks for the five best quick wins, even when it also
    names a company or an impact level.
   */
  lemma {:induction false} QuickWinPhraseDecides(a: string, p: string, b: string)
    requires ToLower(p) == "quick win"
    ensures AnalyzeQuery(a + p + b) == QueryAnalysis(QuickWinsSearch, None, Some(5))
  {
    PhraseInAnyCase(a, p, b, "quick win");
  }

  /**
    Phrases are matched as substrings, not words: "android" contains "roi",
    so a question about Android without a stronger phrase is read as a
    question about return on investment.
   */
  lemma {:induction false} RoiInsideWord(a: string, b: string)
    requires !QuickWinIntent(ToLower(a + "android" + b)) && !HighValueIntent(ToLower(a + "android" + b))
    ensures AnalyzeQuery(a + "android" + b).searchType == ValueEffortSearch
  {
    PhraseInAnyCase(a, "android", b, "android");
    assert "android"[3..6] == "roi";
    ContainsWitness("android", "roi", 3);
    ContainsTrans(ToLower(a + "android" + b), "android", "roi");
  }

  // ---------------------------------------------------------------------------
  // Search results as prompt text
  // ---------------------------------------------------------------------------

  const NoResults := "No relevant insights found in the orionData."

  /** The markdown link to the source at position `l` of a document's links, numbered from 1. */
  function SourceLine(links: seq<string>, l: nat): string
    requires l < |links|
  {
    "[Source " + NatToString(l + 1) + "](" + links[l] + ")"
  }

  /** All the source links of a document, one per line. */
  function SourceLinks(links: seq<string>): (r: string)
    ensures forall l :: 0 <= l < |links| ==> Contains(r, SourceLine(links, l))
  {
    var lines := seq(|links|, l requires 0 <= l < |links| => SourceLine(links, l));
    assert forall l :: 0 <= l < |links| ==> lines[l] == SourceLine(links, l);
    JoinEach(lines, "\n");
    Join(lines, "\n")
  }

  lemma JoinEach(xs: seq<string>, sep: string)
    ensures forall i :: 0 <= i < |xs| ==> Contains(Join(xs, sep), xs[i])
  {
    forall i | 0 <= i < |xs|
      ensures Contains(Join(xs, sep), xs[i])
    {
      JoinContains(xs, sep, i);
    }
  }

  /** The action layout goes exactly with the action document type. */
  function Heading(d: Document): (r: string)
    ensures r == "Action" <==> DocumentType(d) == "action"
  {
    if d.ActionDoc? then "Action" else "Insight"
  }

  /** The numbered header of the result at `index`. */
  function Header(d: Document, index: nat): string {
    "--- " + Heading(d) + " " + NatToString(index + 1) + " ---"
  }

  /** The metadata lines of a result; `numberText` renders a JS number as a template literal does. */
  function Fields(d: Document, numberText: real -> string): string {
    match d
    case ActionDoc(_, _, _, _, _, _, _, _, _, _, _, _, _) =>
      "Company: " + d.company + "\nAction: " + d.actionContent
      + "\nValue Score: " + IntToString(d.value) + "/10\nEffort Score: " + IntToString(d.effort)
      + "/10\nValue-to-Effort Ratio: " + numberText(d.ratio)
      + "\nQuick Win Category: " + CategoryName(d.quickWinCategory)
      + "\nContext: " + d.insightTitle + "\nImpact Level: " + ImpactName(d.impact) + "\n"
    case InsightDoc(_, _, _, _, _, _, _) =>
      "Company: " + d.company + "\nTitle: " + d.title + "\nImpact: " + ImpactName(d.impact)
      + "\nContent: " + d.pageContent + "\n"
  }

  /** The text block of the result at `index`: header, metadata, then its sources. */
  function ResultBlock(d: Document, index: nat, numberText: real -> string): (r: string)
    ensures |r| > 0 && r[0] == '\n'
    ensures Contains(r, Header(d, index))
    ensures forall l :: 0 <= l < |d.links| ==> Contains(r, SourceLine(d.links, l))
  {
    var head := "\n" + Header(d, index) + "\n";
    var sources := SourceLinks(d.links);
    var fields := Fields(d, numberText) + "Source Links:\n";
    var r := head + fields + sources + "\n";
    BlockParts(head, fields, sources, "\n", Header(d, index));
    forall l | 0 <= l < |d.links|
      ensures Contains(r, SourceLine(d.links, l))
    {
      ContainsTrans(r, sources, SourceLine(d.links, l));
    }
    r
  }

  /** Where the header and the sources sit in a block. */
  lemma BlockParts(head: string, fields: string, sources: string, tail: string, header: string)
    requires head == "\n" + header + "\n"
    ensures var r := head + fields + sources + tail;
      |r| > 0 && r[0] == '\n' && Contains(r, header) && Contains(r, sources)
  {
    var r := head + fields + sources + tail;
    ContainsInfix("\n", header, "\n" + fields + sources + tail);
    assert "\n" + header + ("\n" + fields + sources + tail) == r;
    ContainsInfix(head + fields, sources, tail);
  }

  /**
    `formatSearchResults`: a fixed sentence when nothing was found;
    otherwise one block per result, numbered from 1, each
    listing all the sources of its document.
   */
  function FormatSearchResults(results: seq<Document>, numberText: real -> string): (r: string)
    ensures r == NoResults <==> |results| == 0
    ensures forall i :: 0 <= i < |results| ==> Contains(r, ResultBlock(results[i], i, numberText))
  {
    if |results| == 0 then NoResults
    else
      var blocks := seq(|results|, i requires 0 <= i < |results| => ResultBlock(results[i], i, numberText));
      assert forall i :: 0 <= i < |results| ==> blocks[i] == ResultBlock(results[i], i, numberText);
      JoinEach(blocks, "\n");
      JoinStartsWithFirst(blocks, "\n");
      assert Join(blocks, "\n")[0] == '\n' != NoResults[0];
      Join(blocks, "\n")
  }

  /** Every source of every result, and every result's header, reaches the formatted text. */
  lemma FormattedResultsCiteSources(results: seq<Document>, numberText: real -> string, i: nat, l: nat)
    requires i < |results| && l < |results[i].links|
    ensures Contains(FormatSearchResults(results, numberText), Header(results[i], i))
    ensures Contains(FormatSearchResults(results, numberText), SourceLine(results[i].links, l))
  {
    var block := ResultBlock(results[i], i, numberText);
    ContainsTrans(FormatSearchResults(results, numberText), block, Header(results[i], i));
    ContainsTrans(FormatSearchResults(results, numberText), block, SourceLine(results[i].links, l));
  }

  // ---------------------------------------------------------------------------
  // The system prompt
  // ---------------------------------------------------------------------------

  /** The role paragraph for every other strategy, line by line. */
  const DefaultRoleLines: seq<string> := [
    "You are the Loomii AI Assistant, a competitor intelligence assistant that helps user understand the competitive landscape and make informed decisions. If you're asked who you are, you're the Loomii AI Assistant.",
    "  "]

  /** The role paragraph of a quick-wins question. */
  const QuickWinsRoleLines: seq<string> := [
    "",
    "You are analyzing QUICK WINS - actions that provide high value with relatively low effort. Focus on:",
    "- Actions that can be implemented quickly (today or this week)",
    "- High value-to-effort ratios",
    "- Immediate competitive advantages",
    "- Low-risk, high-return opportunities"]

  /** The role paragraph of a high-value question. */
  const HighValueRoleLines: seq<string> := [
    "",
    "You are analyzing HIGH-VALUE ACTIONS - strategic moves that provide maximum competitive advantage. Focus on:",
    "- Actions with the highest value scores",
    "- Strategic long-term benefits",
    "- Market positioning advantages",
    "- Competitive differentiation opportunities"]

  /** The role paragraph of a value-to-effort question. */
  const ValueEffortRoleLines: seq<string> := [
    "",
    "You are analyzing VALUE-TO-EFFORT RATIOS - the most efficient actions for competitive advantage. Focus on:",
    "- Return on investment (ROI)",
    "- Efficiency of implementation",
    "- Resource optimization",
    "- Maximum impact per unit of effort"]

  /** The prompt up to the role paragraph. */
  const IntroLines: seq<string> := [
    "You are an AI assistant specialized in cybersecurity market intelligence and competitive strategy. You have access to detailed insights about cybersecurity companies including Digital Guardian, Zscaler, and Forcepoint.",
    "",
    ""]

  /** The prompt between the role paragraph and the results. */
  const TaskLines: seq<string> := [
    "",
    "",
    "Your role is to:",
    "1. Analyze and interpret cybersecurity market data",
    "2. Provide strategic insights about competitor activities",
    "3. Suggest actionable recommendations based on market intelligence",
    "4. Help users understand industry trends and opportunities",
    "5. Prioritize actions based on value, effort, and competitive impact",
    "",
    "Here are the relevant insights from the orionData based on the user's query:",
    "",
    ""]

  /** The prompt after the results. */
  const InstructionLines: seq<string> := [
    "",
    "",
    "Instructions:",
    "- Use the provided insights to answer the user's question comprehensively",
    "- When showing actions, always include value scores, effort scores, and value-to-effort ratios",
    "- Prioritize recommendations based on the search type (quick wins, high value, etc.)",
    "- Provide specific, actionable advice with clear implementation guidance",
    "- Reference specific companies, strategies, or market trends from the data",
    "- Be concise but thorough in your responses",
    "- If asked about companies not in the data, clearly state that information is not available",
    "- For competitive analysis, explain how each action helps versus competitors",
    "- **IMPORTANT: Always include the source links provided in the search results at the end of your response**",
    "- Format source links exactly as shown in the search results using markdown link format",
    "",
    "Remember: You are an expert analyst helping with cybersecurity market intelligence and competitive analysis, with a focus on actionable, high-impact recommendations.",
    "",
    "Important: Always provide the source links for the information in your response. The links are properties of the metadata object in the search results.",
    "",
    "Example format for including sources:",
    "",
    "## Sources",
    "[summary of source title](https://example.com/link1)",
    "..additional sources..",
    "",
    "Make sure to always end the response with a question asking the user if they want assistance with moving forward with the recommendations, such as creating a plan, timeline, or next steps. Make sure that this question is formatted in such a way that the user won't miss it."]

  /** The role paragraph: one per ranking strategy, the assistant's introduction otherwise. */
  function RoleContext(t: SearchType): string {
    Join(RoleLines(t), "\n")
  }

  function RoleLines(t: SearchType): seq<string> {
    match t
    case QuickWinsSearch => QuickWinsRoleLines
    case HighValueSearch => HighValueRoleLines
    case ValueEffortSearch => ValueEffortRoleLines
    case _ => DefaultRoleLines
  }

  /** Each ranking strategy has a role text of its own; every other strategy shares the default one. */
  lemma {:induction false} RoleLinesDistinct(s: SearchType, t: SearchType)
    ensures RoleLines(s) == RoleLines(t) <==> s == t || (!IsRanking(s) && !IsRanking(t))
  {
    var q, h, v := QuickWinsRoleLines, HighValueRoleLines, ValueEffortRoleLines;
    assert |DefaultRoleLines| == 2 && |q| == |h| == |v| == 6;
    assert q[2][|q[2]| - 1] == ')' && h[2][|h[2]| - 1] == 's';
    assert v[5][|v[5]| - 1] == 't' && q[5][|q[5]| - 1] == 's' && h[5][|h[5]| - 1] == 's';
  }

  /**
    `createSystemPrompt`: the role paragraph for the strategy and the
    formatted results, embedded unchanged in the fixed instructions.
   */
  function CreateSystemPrompt(searchResults: string, t: SearchType): (r: string)
    ensures Contains(r, RoleContext(t)) && Contains(r, searchResults)
  {
    var intro, tasks, instructions := Join(IntroLines, "\n"), Join(TaskLines, "\n"), Join(InstructionLines, "\n");
    PromptParts(intro, RoleContext(t), tasks, searchResults, instructions);
    intro + RoleContext(t) + tasks + searchResults + instructions
  }

  lemma PromptParts(intro: string, role: string, tasks: string, results: string, instructions: string)
    ensures Contains(intro + role + tasks + results + instructions, role)
    ensures Contains(intro + role + tasks + results + instructions, results)
  {
    ContainsInfix(intro, role, tasks + results + instructions);
    assert intro + role + (tasks + results + instructions) == intro + role + tasks + results + instructions;
    ContainsInfix(intro + role + tasks, results, instructions);
  }

  /** Whatever the strategy, the prompt lists every source of every result it was given. */
  lemma PromptCitesSources(results: seq<Document>, numberText: real -> string, t: SearchType, i: nat, l: nat)
    requires i < |results| && l < |results[i].links|
    ensures Contains(CreateSystemPrompt(FormatSearchResults(results, numberText), t), SourceLine(results[i].links, l))
  {
    FormattedResultsCiteSources(results, numberText, i, l);
    ContainsTrans(CreateSystemPrompt(FormatSearchResults(results, numberText), t),
                  FormatSearchResults(results, numberText), SourceLine(results[i].links, l));
  }

  // ---------------------------------------------------------------------------
  // Retrieval
  // ---------------------------------------------------------------------------

  /** `k || fallback`: a missing or zero `k` takes the fallback. */
  function KOr(k: Option<nat>, fallback: nat): (r: nat)
    ensures k.Some? && k.value != 0 ==> r == k.value
    ensures k.None? || k.value == 0 ==> r == fallback
  {
    if k.Some? && k.value != 0 then k.value else fallback
  }

  /**
    The retrieval `streamAgentResponse` runs on a ready store for an
    analysed question: the ranking strategies with their default
    thresholds, the company and impact filters when there is a term, and a
    similarity search on the question otherwise. Each ranking strategy
    returns at most its `k` action documents that pass its threshold, best
    first; the filters return only documents of that company or level.
   */
  function Retrieved(st: Store, a: QueryAnalysis, message: string): (r: Result<seq<Document>, string>)
    ensures r.Success? && a.searchType == QuickWinsSearch ==>
      && |r.value| <= KOr(a.k, 5) && SortedDesc(r.value, Ratio)
      && forall d :: d in r.value ==> d.ActionDoc? && d.value >= 6 && d.effort <= 4
    ensures r.Success? && a.searchType == HighValueSearch ==>
      && |r.value| <= KOr(a.k, 5) && SortedDesc(r.value, Value)
      && forall d :: d in r.value ==> d.ActionDoc? && d.value >= 7
    ensures r.Success? && a.searchType == ValueEffortSearch ==>
      && |r.value| <= KOr(a.k, 5) && SortedDesc(r.value, Ratio)
      && forall d :: d in r.value ==> d.ActionDoc? && d.ratio >= 1.5
    ensures r.Success? && a.searchType == CompanySearch ==>
      forall d :: d in r.value ==> a.searchTerm.Some? && ToLower(d.company) == ToLower(a.searchTerm.value)
    ensures r.Success? && a.searchType == ImpactSearch ==>
      forall d :: d in r.value ==> a.searchTerm.Some? && ImpactName(d.impact) == a.searchTerm.value
    ensures !IsRanking(a.searchType) && a.searchType != CompanySearch && a.searchType != ImpactSearch ==>
      r == st.search(message, KOr(a.k, 3))
  {
    match a.searchType
    case QuickWinsSearch =>
      var found := st.search(QuickWinsQuery, 20);
      if found.Success? then Success(QuickWins(found.value, KOr(a.k, 5), 6, 4)) else Failure(found.error)
    case HighValueSearch =>
      var found := st.search(HighValueQuery, 20);
      if found.Success? then Success(HighValueActions(found.value, KOr(a.k, 5), 7)) else Failure(found.error)
    case ValueEffortSearch =>
      var found := st.search(RatioQuery, 30);
      if found.Success? then Success(ActionsByRatio(found.value, KOr(a.k, 5), 1.5)) else Failure(found.error)
    case CompanySearch =>
      if a.searchTerm.Some? && a.searchTerm.value != "" then
        var found := st.search("company: " + a.searchTerm.value, 20);
        if found.Success? then Success(ByCompanyChecked(found.value, a.searchTerm.value)) else Failure(found.error)
      else Success([])
    case ImpactSearch =>
      if a.searchTerm.Some? && a.searchTerm.value != "" then
        var found := st.search("impact: " + a.searchTerm.value, 20);
        if found.Success? then Success(ByImpactChecked(found.value, a.searchTerm.value)) else Failure(found.error)
      else Success([])
    case _ => st.search(message, KOr(a.k, 3))
  }

  /** `ByCompany`, with what its multiset contract says about each member drawn out. */
  function ByCompanyChecked(candidates: seq<Document>, companyName: string): (r: seq<Document>)
    ensures r == ByCompany(candidates, companyName)
    ensures forall d :: d in r ==> ToLower(d.company) == ToLower(companyName)
  {
    var r := ByCompany(candidates, companyName);
    assert forall d :: d in r ==> multiset(r)[d] > 0;
    r
  }

  function ByImpactChecked(candidates: seq<Document>, impact: string): (r: seq<Document>)
    ensures r == ByImpact(candidates, impact)
    ensures forall d :: d in r ==> ImpactName(d.impact) == impact
  {
    var r := ByImpact(candidates, impact);
    assert forall d :: d in r ==> multiset(r)[d] > 0;
    r
  }

  /**
    End to end: a question that says "quick win" gets at most five quick
    wins, each an action of value at least 6 and effort at most 4, best
    value-to-effort ratio first.
   */
  lemma {:induction false} QuickWinQuestionRetrieval(st: Store, a: string, p: string, b: string)
    requires ToLower(p) == "quick win"
    ensures var r := Retrieved(st, AnalyzeQuery(a + p + b), a + p + b);
      r.Success? ==>
        && |r.value| <= 5 && SortedDesc(r.value, Ratio)
        && forall d :: d in r.value ==> d.ActionDoc? && d.value >= 6 && d.effort <= 4
  {
    QuickWinPhraseDecides(a, p, b);
  }

  // ---------------------------------------------------------------------------
  // Direct search
  // ---------------------------------------------------------------------------

  /** The options of `searchOrionData`; a missing one takes its default. */
  datatype SearchOptions = SearchOptions(
    searchType: Option<SearchType>, k: Option<nat>, includeScores: Option<bool>,
    minValue: Option<int>, maxEffort: Option<int>, minRatio: Option<real>)

  /** The `metadata` of a search response: the thresholds a ranking strategy used, or nothing. */
  datatype Criteria =
    | NoCriteria
    | QuickWinCriteria(minValue: int, maxEffort: int)
    | HighValueCriteria(minValue: int)
    | RatioCriteria(minRatio: real)

  function CriteriaText(c: Criteria): string {
    match c
    case NoCriteria => ""
    case QuickWinCriteria(_, _) => "high value, low effort"
    case HighValueCriteria(_) => "high value actions"
    case RatioCriteria(_) => "high value-to-effort ratio"
  }

  datatype SearchResponse = SearchResponse(
    results: seq<Document>, scores: Option<seq<real>>, searchType: string, query: string, metadata: Criteria)

  function GetOr<T>(o: Option<T>, fallback: T): T {
    if o.Some? then o.value else fallback
  }

  function PairDoc(p: (Document, real)): Document {
    p.0
  }

  function PairScore(p: (Document, real)): real {
    p.1
  }

  /** Whether a search with these options reports scores. */
  predicate ReportsScores(o: SearchOptions) {
    var t := GetOr(o.searchType, SimilaritySearch);
    !IsRanking(t) && t != CompanySearch && t != ImpactSearch && GetOr(o.includeScores, false)
  }

  /** The thresholds a search with these options reports. */
  function CriteriaOf(o: SearchOptions): Criteria {
    match GetOr(o.searchType, SimilaritySearch)
    case QuickWinsSearch => QuickWinCriteria(GetOr(o.minValue, 6), GetOr(o.maxEffort, 4))
    case HighValueSearch => HighValueCriteria(GetOr(o.minValue, 6))
    case ValueEffortSearch => RatioCriteria(GetOr(o.minRatio, 1.5))
    case _ => NoCriteria
  }

  /**
    The documents, and the scores if asked for, that the chosen strategy
    finds with the given or default thresholds (6, 4 and 1.5) and `k` (3).
    Scores come only from a similarity search that asks for them, one per
    result.
   */
  function Found(st: Store, query: string, o: SearchOptions): (r: Result<(seq<Document>, Option<seq<real>>), string>)
    ensures r.Success? ==> (r.value.1.Some? <==> ReportsScores(o))
    ensures r.Success? && r.value.1.Some? ==> |r.value.1.value| == |r.value.0|
    ensures r.Success? && IsRanking(GetOr(o.searchType, SimilaritySearch)) ==>
      |r.value.0| <= GetOr(o.k, 3) && forall d :: d in r.value.0 ==> d.ActionDoc?
    ensures r.Success? && GetOr(o.searchType, SimilaritySearch) == QuickWinsSearch ==>
      && SortedDesc(r.value.0, Ratio)
      && forall d :: d in r.value.0 ==> d.value >= GetOr(o.minValue, 6) && d.effort <= GetOr(o.maxEffort, 4)
    ensures r.Success? && GetOr(o.searchType, SimilaritySearch) == HighValueSearch ==>
      && SortedDesc(r.value.0, Value)
      && forall d :: d in r.value.0 ==> d.value >= GetOr(o.minValue, 6)
    ensures r.Success? && GetOr(o.searchType, SimilaritySearch) == ValueEffortSearch ==>
      && SortedDesc(r.value.0, Ratio)
      && forall d :: d in r.value.0 ==> d.ratio >= GetOr(o.minRatio, 1.5)
    ensures r.Success? && GetOr(o.searchType, SimilaritySearch) == CompanySearch ==>
      forall d :: d in r.value.0 ==> ToLower(d.company) == ToLower(query)
    ensures r.Success? && GetOr(o.searchType, SimilaritySearch) == ImpactSearch ==>
      forall d :: d in r.value.0 ==> ImpactName(d.impact) == query
    ensures !IsRanking(GetOr(o.searchType, SimilaritySearch)) && GetOr(o.searchType, SimilaritySearch) != CompanySearch
            && GetOr(o.searchType, SimilaritySearch) != ImpactSearch && !GetOr(o.includeScores, false) ==>
      var f := st.search(query, GetOr(o.k, 3));
      r == if f.Success? then Success((f.value, None)) else Failure(f.error)
  {
    var t, k := GetOr(o.searchType, SimilaritySearch), GetOr(o.k, 3);
    if IsRanking(t) then
      var f := Ranked(st, t, k, GetOr(o.minValue, 6), GetOr(o.maxEffort, 4), GetOr(o.minRatio, 1.5));
      if f.Success? then Success((f.value, None)) else Failure(f.error)
    else if t == CompanySearch || t == ImpactSearch then
      var f := st.search((if t == CompanySearch then "company: " else "impact: ") + query, 20);
      if f.Success? then Success((if t == CompanySearch then ByCompanyChecked(f.value, query) else ByImpactChecked(f.value, query), None))
      else Failure(f.error)
    else if GetOr(o.includeScores, false) then
      var f := st.searchWithScore(query, k);
      if f.Success? then Success((Map(f.value, PairDoc), Some(Map(f.value, PairScore)))) else Failure(f.error)
    else
      var f := st.search(query, k);
      if f.Success? then Success((f.value, None)) else Failure(f.error)
  }

  /** The three ranking strategies of a direct search: at most `k` action documents. */
  function Ranked(st: Store, t: SearchType, k: nat, minValue: int, maxEffort: int, minRatio: real): (r: Result<seq<Document>, string>)
    requires IsRanking(t)
    ensures r.Success? ==> |r.value| <= k && forall d :: d in r.value ==> d.ActionDoc?
    ensures r.Success? && t == QuickWinsSearch ==>
      SortedDesc(r.value, Ratio) && forall d :: d in r.value ==> d.value >= minValue && d.effort <= maxEffort
    ensures r.Success? && t == HighValueSearch ==>
      SortedDesc(r.value, Value) && forall d :: d in r.value ==> d.value >= minValue
    ensures r.Success? && t == ValueEffortSearch ==>
      SortedDesc(r.value, Ratio) && forall d :: d in r.value ==> d.ratio >= minRatio
  {
    if t == QuickWinsSearch then
      var f := st.search(QuickWinsQuery, 20);
      if f.Success? then Success(QuickWins(f.value, k, minValue, maxEffort)) else Failure(f.error)
    else if t == HighValueSearch then
      var f := st.search(HighValueQuery, 20);
      if f.Success? then Success(HighValueActions(f.value, k, minValue)) else Failure(f.error)
    else
      var f := st.search(RatioQuery, 30);
      if f.Success? then Success(ActionsByRatio(f.value, k, minRatio)) else Failure(f.error)
  }

  /** `searchOrionData` on a ready store: what was found, tagged with the query, strategy and thresholds. */
  function Searched(st: Store, query: string, o: SearchOptions): (r: Result<SearchResponse, string>)
    ensures r.Success? <==> Found(st, query, o).Success?
    ensures r.Success? ==>
      && r.value.results == Found(st, query, o).value.0 && r.value.scores == Found(st, query, o).value.1
      && r.value.query == query && r.value.searchType == SearchTypeName(GetOr(o.searchType, SimilaritySearch))
      && r.value.metadata == CriteriaOf(o)
  {
    var found := Found(st, query, o);
    if found.Success? then
      Success(SearchResponse(found.value.0, found.value.1, SearchTypeName(GetOr(o.searchType, SimilaritySearch)), query, CriteriaOf(o)))
    else Failure(found.error)
  }

  /**
    Scored results are read back pairwise: the i-th result and the i-th
    score are the i-th pair the index returned.
   */
  lemma ScoresPairUp(st: Store, query: string, o: SearchOptions, i: nat)
    requires Found(st, query, o).Success? && Found(st, query, o).value.1.Some?
    requires i < |Found(st, query, o).value.0|
    ensures st.searchWithScore(query, GetOr(o.k, 3)).Success?
    ensures var pairs := st.searchWithScore(query, GetOr(o.k, 3)).value;
      i < |pairs| && (Found(st, query, o).value.0[i], Found(st, query, o).value.1.value[i]) == pairs[i]
  {
  }

  /**
    A direct high-value search without `minValue` keeps actions of value 6,
    whereas the agent's turn asks for value at least 7: the two paths
    disagree on the same candidates.
   */
  lemma {:induction false} DirectHighValueThreshold(st: Store, query: string, o: SearchOptions)
    requires o.searchType == Some(HighValueSearch) && o.minValue.None?
    ensures Found(st, query, o).Success? ==>
      && SortedDesc(Found(st, query, o).value.0, Value)
      && forall d :: d in Found(st, query, o).value.0 ==> d.ActionDoc? && d.value >= 6
  {
  }

  /** A value-6 action is among the high-value actions at threshold 6, and not at threshold 7. */
  lemma {:induction false} ValueSixRanking(d: Document)
    requires d.ActionDoc? && d.value == 6
    ensures HighValueActions([d], 3, 6) == [d]
    ensures HighValueActions([d], 5, 7) == []
  {
    assert Filter([d], HighValueFilter(6)) == [d];
    assert Filter([d], HighValueFilter(7)) == [];
    var direct := HighValueActions([d], 3, 6);
    assert |direct| == 1 && direct[0] in [d];
  }

  /** A direct high-value search without `minValue` returns a value-6 action that the candidates hold. */
  lemma {:induction false} DirectHighValueKeepsSix(st: Store, d: Document, query: string)
    requires d.ActionDoc? && d.value == 6 && st.search(HighValueQuery, 20) == Success([d])
    ensures Found(st, query, SearchOptions(Some(HighValueSearch), None, None, None, None, None)) == Success(([d], None))
  {
    ValueSixRanking(d);
  }

  /** The agent's high-value retrieval drops that same value-6 action. */
  lemma {:induction false} AgentHighValueDropsSix(st: Store, d: Document, message: string)
    requires d.ActionDoc? && d.value == 6 && st.search(HighValueQuery, 20) == Success([d])
    ensures Retrieved(st, QueryAnalysis(HighValueSearch, None, None), message) == Success([])
  {
    ValueSixRanking(d);
  }

  // ---------------------------------------------------------------------------
  // The agent
  // ---------------------------------------------------------------------------

  /** The key an agent conversation is stored under: `"default"` when no id is given. */
  function ConversationKey(conversationId: Option<string>): string {
    if conversationId.Some? then conversationId.value else "default"
  }

  /** The history a conversation starts a turn from; the empty id is never read from the store. */
  function StartOf(histories: map<string, seq<Message>>, id: string): seq<Message> {
    if id == "" then [] else HistoryOf(histories, id)
  }

  /**
    What the model is asked: the system prompt, the history, which by then
    already ends with the user message, and the user message once more.
   */
  function AgentContext(pushed: seq<Message>, message: string, prompt: string): (r: seq<Message>)
    ensures |r| == |pushed| + 2 && r[0] == AIMessage(prompt) && r[1..|pushed| + 1] == pushed
    ensures r[|pushed| + 1] == HumanMessage(message)
  {
    [AIMessage(prompt)] + pushed + [HumanMessage(message)]
  }

  /**
    The agent's history after a turn, from the history the user message was
    pushed onto: when the answer completed, the user message a second time
    and then the whole answer; otherwise nothing more.
   */
  function AgentHistoryAfter(pushed: seq<Message>, message: string, reply: LlmReply): (r: seq<Message>)
    ensures |r| == |pushed| + if reply.Streamed? then 2 else 0
    ensures r[..|pushed|] == pushed
    ensures reply.Streamed? ==>
      r[|pushed|] == HumanMessage(message) && r[|pushed| + 1] == AIMessage(Concat(reply.chunks))
  {
    if reply.Streamed? then pushed + [HumanMessage(message), AIMessage(Concat(reply.chunks))]
    else pushed
  }

  /** A completed turn leaves the user message twice in a row, then the answer. */
  lemma UserMessageRecordedTwice(before: seq<Message>, message: string, chunks: seq<string>)
    ensures var r := AgentHistoryAfter(before + [HumanMessage(message)], message, Streamed(chunks));
      |r| == |before| + 3 && r[..|before|] == before
      && r[|before|] == r[|before| + 1] == HumanMessage(message) && r[|before| + 2] == AIMessage(Concat(chunks))
  {
  }

  /** The histories after a turn that stored `history` under `id`; the empty id stores nothing. */
  function StoreUnder(histories: map<string, seq<Message>>, id: string, history: seq<Message>): map<string, seq<Message>> {
    if id == "" then histories else histories[id := history]
  }

  /** Storing twice under one id keeps the second history. */
  lemma StoreUnderTwice(histories: map<string, seq<Message>>, id: string, first: seq<Message>, second: seq<Message>)
    ensures StoreUnder(StoreUnder(histories, id, first), id, second) == StoreUnder(histories, id, second)
  {
  }

  /** What the retrieval of a turn yields from the result of the store's initialisation. */
  function Retrieval(init: Result<Store, string>, message: string): Result<seq<Document>, string> {
    if init.Failure? then Failure(init.error) else Retrieved(init.value, AnalyzeQuery(message), message)
  }

  /** The agent service, over its conversation store and the vector store. */
  class Agent {
    const conversations: ConversationStore
    const vectors: VectorStoreService

    ghost predicate Valid()
      reads this, conversations, vectors
    {
      conversations.Valid() && vectors.Valid()
    }

    constructor(conversations: ConversationStore, vectors: VectorStoreService)
      requires conversations.Valid() && vectors.Valid()
      ensures Valid() && this.conversations == conversations && this.vectors == vectors
    {
      this.conversations := conversations;
      this.vectors := vectors;
    }

    /**
      The `switch` of `streamAgentResponse`, on a store that is already built;
      it returns what `Retrieved` specifies, so the strategies' promises are stated there.
     */
    method Retrieve(analysis: QueryAnalysis, message: string) returns (r: Result<seq<Document>, string>)
      requires vectors.Valid() && vectors.vectorStore.Some?
      modifies vectors
      ensures vectors.Valid() && vectors.vectorStore == old(vectors.vectorStore)
      ensures r == Retrieved(old(vectors.vectorStore).value, analysis, message)
    {
      match analysis.searchType
      case QuickWinsSearch =>
        r := vectors.GetQuickWins(KOr(analysis.k, 5), 6, 4);
      case HighValueSearch =>
        r := vectors.GetHighValueActions(KOr(analysis.k, 5), 7);
      case ValueEffortSearch =>
        r := vectors.GetActionsByValueEffortRatio(KOr(analysis.k, 5), 1.5);
      case CompanySearch =>
        r := Success([]);
        if analysis.searchTerm.Some? && analysis.searchTerm.value != "" {
          r := vectors.GetInsightsByCompany(analysis.searchTerm.value);
        }
      case ImpactSearch =>
        r := Success([]);
        if analysis.searchTerm.Some? && analysis.searchTerm.value != "" {
          r := vectors.GetInsightsByImpact(analysis.searchTerm.value);
        }
      case _ =>
        r := vectors.PerformSimilaritySearch(message, KOr(analysis.k, 3));
    }

    /**
      `searchOrionData`: builds the store if needed, then runs the chosen
      strategy; a failure of either is the result.
     */
    method SearchOrionData(query: string, options: SearchOptions) returns (r: Result<SearchResponse, string>)
      requires vectors.Valid()
      modifies vectors
      ensures vectors.Valid() && vectors.vectorStore == vectors.StoredAfter(old(vectors.vectorStore))
      ensures var init := vectors.Initialized(old(vectors.vectorStore));
        r == if init.Failure? then Failure(init.error) else Searched(init.value, query, options)
    {
      var init := vectors.InitializeVectorStore();
      if init.Failure? {
        return Failure(init.error);
      }
      var found := FindReady(query, options);
      if found.Failure? {
        return Failure(found.error);
      }
      var t := GetOr(options.searchType, SimilaritySearch);
      r := Success(SearchResponse(found.value.0, found.value.1, SearchTypeName(t), query, CriteriaOf(options)));
    }

    /**
      The `switch` of `searchOrionData`, on a store that is already built;
      it returns what `Found` specifies, so the options' meaning is stated there.
     */
    method FindReady(query: string, options: SearchOptions)
      returns (found: Result<(seq<Document>, Option<seq<real>>), string>)
      requires vectors.Valid() && vectors.vectorStore.Some?
      modifies vectors
      ensures vectors.Valid() && vectors.vectorStore == old(vectors.vectorStore)
      ensures found == Found(old(vectors.vectorStore).value, query, options)
    {
      var t, k := GetOr(options.searchType, SimilaritySearch), GetOr(options.k, 3);
      var minValue, maxEffort, minRatio := GetOr(options.minValue, 6), GetOr(options.maxEffort, 4), GetOr(options.minRatio, 1.5);
      var results: Result<seq<Document>, string>;
      if t == QuickWinsSearch {
        results := vectors.GetQuickWins(k, minValue, maxEffort);
      } else if t == HighValueSearch {
        results := vectors.GetHighValueActions(k, minValue);
      } else if t == ValueEffortSearch {
        results := vectors.GetActionsByValueEffortRatio(k, minRatio);
      } else if t == CompanySearch {
        results := vectors.GetInsightsByCompany(query);
      } else if t == ImpactSearch {
        results := vectors.GetInsightsByImpact(query);
      } else if GetOr(options.includeScores, false) {
        var pairs := vectors.PerformSimilaritySearchWithScore(query, k);
        if pairs.Failure? {
          return Failure(pairs.error);
        }
        return Success((Map(pairs.value, PairDoc), Some(Map(pairs.value, PairScore))));
      } else {
        results := vectors.PerformSimilaritySearch(query, k);
      }
      found := if results.Success? then Success((results.value, None)) else Failure(results.error);
    }

    /**
      `streamAgentResponse`. The user message is pushed onto the live
      history at once. The store is built if needed and the question's
      strategy retrieves documents; a failure of either ends the stream with
      that error. Otherwise the model answers the system prompt and the
      conversation, its non-empty chunks are streamed in order, and when it
      completes the history gets the user message again and the answer; when
      it fails the stream reports the error.
     */
    method StreamAgentResponse(message: string, conversationId: Option<string>,
                               llm: seq<Message> -> LlmReply, numberText: real -> string)
      returns (events: seq<StreamEvent>)
      requires Valid()
      modifies conversations, vectors
      ensures Valid()
      ensures vectors.vectorStore == vectors.StoredAfter(old(vectors.vectorStore))
      ensures var id := ConversationKey(conversationId);
        conversations.ids == if id == "" then old(conversations.ids) else old(conversations.IdsAfterSet(id))
      ensures var id := ConversationKey(conversationId);
        var before := StartOf(old(conversations.histories), id);
        var found := Retrieval(vectors.Initialized(old(vectors.vectorStore)), message);
        found.Failure? ==>
          && events == [Error(found.error)]
          && conversations.histories == StoreUnder(old(conversations.histories), id, before + [HumanMessage(message)])
      ensures var id := ConversationKey(conversationId);
        var before := StartOf(old(conversations.histories), id);
        var found := Retrieval(vectors.Initialized(old(vectors.vectorStore)), message);
        found.Success? ==>
          var analysis := AnalyzeQuery(message);
          var prompt := CreateSystemPrompt(FormatSearchResults(found.value, numberText), analysis.searchType);
          var reply := llm(AgentContext(before + [HumanMessage(message)], message, prompt));
          && events == EventsOf(reply)
          && conversations.histories ==
               StoreUnder(old(conversations.histories), id, AgentHistoryAfter(before + [HumanMessage(message)], message, reply))
    {
      var id := ConversationKey(conversationId);
      ghost var start := conversations.histories;
      var history := PushUserMessage(id, message);
      var init := vectors.InitializeVectorStore();
      if init.Failure? {
        return [Error(init.error)];
      }
      var analysis := AnalyzeQuery(message);
      var found := Retrieve(analysis, message);
      if found.Failure? {
        return [Error(found.error)];
      }
      var prompt := CreateSystemPrompt(FormatSearchResults(found.value, numberText), analysis.searchType);
      events := Answer(id, history, message, prompt, llm);
      StoreUnderTwice(start, id, history, AgentHistoryAfter(history, message, llm(AgentContext(history, message, prompt))));
    }

    /**
      The model's part of a turn, once the user message is on the history:
      the streamed answer to the prompt and the conversation, and the
      history the answer leaves.
     */
    method Answer(id: string, history: seq<Message>, message: string,
                  prompt: string, llm: seq<Message> -> LlmReply)
      returns (events: seq<StreamEvent>)
      requires conversations.Valid()
      requires id != "" ==> id in conversations.histories && conversations.histories[id] == history
      modifies conversations
      ensures conversations.Valid()
      ensures conversations.ids == old(conversations.ids)
      ensures var reply := llm(AgentContext(history, message, prompt));
        && events == EventsOf(reply)
        && conversations.histories ==
             if reply.Streamed? then StoreUnder(old(conversations.histories), id, AgentHistoryAfter(history, message, reply))
             else old(conversations.histories)
    {
      var reply := llm(AgentContext(history, message, prompt));
      var full, sent := Relay(reply.chunks);
      if reply.Streamed? {
        var after := AgentHistoryAfter(history, message, reply);
        if id != "" {
          conversations.Update(id, after);
        }
      }
      events := DataEvents(sent) + [if reply.Streamed? then End else Error(reply.reason)];
    }

    /**
      The start of a turn: the conversation's history, created if new, with
      the user message pushed onto the live array, so the store sees it at
      once; the empty id reads and stores nothing.
     */
    method PushUserMessage(id: string, message: string) returns (history: seq<Message>)
      requires conversations.Valid()
      modifies conversations
      ensures conversations.Valid()
      ensures history == StartOf(old(conversations.histories), id) + [HumanMessage(message)]
      ensures conversations.histories == StoreUnder(old(conversations.histories), id, history)
      ensures conversations.ids == if id == "" then old(conversations.ids) else old(conversations.IdsAfterSet(id))
    {
      history := conversations.GetOrCreate(Some(id));
      history := history + [HumanMessage(message)];
      if id != "" {
        conversations.Append(id, HumanMessage(message));
      }
    }

    /** `getAgentConversationHistory`: the stored history, creating an empty one for a new id. */
    method GetAgentConversationHistory(conversationId: string) returns (h: seq<Message>)
      requires Valid()
      modifies conversations
      ensures Valid()
      ensures h == StartOf(old(conversations.histories), conversationId)
      ensures conversations.histories ==
        if conversationId == "" || conversationId in old(conversations.histories) then old(conversations.histories)
        else old(conversations.histories)[conversationId := []]
      ensures conversations.ids == if conversationId == "" then old(conversations.ids) else old(conversations.IdsAfterSet(conversationId))
    {
      h := conversations.GetOrCreate(Some(conversationId));
    }

    /** `clearAgentConversationHistory`: the id keeps its key with an empty history. */
    method ClearAgentConversationHistory(conversationId: string)
      requires Valid()
      modifies conversations
      ensures Valid()
      ensures conversations.histories == old(conversations.histories)[conversationId := []]
      ensures conversations.ids == old(conversations.IdsAfterSet(conversationId))
    {
      conversations.Update(conversationId, []);
    }
  }
}

/**
  The fixed competitor-intelligence dataset the corpus is built from:
  ten insights about three companies, each with its proposed actions
  scored for value and effort.
 */
module OrionData {
  import opened Sequences

  /** How strongly an insight affects the business. */
  datatype Impact = High | Medium | Low

  /** The literal an impact level is written as. */
  function ImpactName(i: Impact): (r: string)
    ensures r == "high" || r == "medium" || r == "low"
  {
    match i
    case High => "high"
    case Medium => "medium"
    case Low => "low"
  }

  /** A proposed action with its value and effort scores. */
  datatype ProposedAction = ProposedAction(content: string, value: int, effort: int)

  datatype Insight = Insight(title: string, summary: string, proposedActions: seq<ProposedAction>)

  datatype AiInsight = AiInsight(company: string, homepage: string, insight: Insight, impact: Impact, links: seq<string>)

  /** The dataset, `orion_data.aiInsights`. */
  const OrionInsights: seq<AiInsight> :=
    [Insight0, Insight1, Insight2, Insight3, Insight4, Insight5, Insight6, Insight7, Insight8, Insight9]

  const Insight0: AiInsight :=
    AiInsight(
      "Digital Guardian",
      "https://www.digitalguardian.com",
      Insight(
        "Emphasis on Regulatory Compliance",
        "Digital Guardian (part of Fortra) is heavily emphasizing assistance with various compliance standards, particularly CMMC 2.0 for defense contractors, ISO 27001, and UK GSC. This indicates a strong market focus on regulated industries and the importance of data classification for meeting these requirements.",
        [
          ProposedAction(
            "Research relevant industry compliance standards (e.g., CMMC if working with DoD) and assess your current posture.",
            6, 3),
          ProposedAction(
            "Identify tools or services that specifically address the data classification and compliance needs relevant to your business.",
            7, 4),
          ProposedAction(
            "Highlight your own compliance capabilities in marketing materials to attract clients in regulated sectors.",
            8, 5)
        ]),
      Medium,
      [
        "https://t.co/yYkIpoDnTY",
        "https://t.co/0EcsjSoNFX",
        "https://t.co/tvXeivil4D",
        "https://t.co/yxpSmJ073H",
        "https://t.co/lbEmhnTepY",
        "https://t.co/cDTXLmCiSB",
        "https://t.co/jPDCTxXD7T",
        "https://t.co/PsF8gJjZtd",
        "https://t.co/4ypjlqV7Qu",
        "https://t.co/0lSW4rGBNu"
      ])

  const Insight1: AiInsight :=
    AiInsight(
      "Digital Guardian",
      "https://www.digitalguardian.com",
      Insight(
        "Promoting Integrated SSE Security",
        "Digital Guardian is promoting its Secure Service Edge (SSE) solution, integrating DLP, CASB, SWG, and ZTNA, and highlighting specific features like secure collaboration and support for new processors. This points to a strategy of offering a comprehensive security platform.",
        [
          ProposedAction(
            "Analyze your current security stack to identify potential gaps addressed by an integrated SSE approach.",
            5, 4),
          ProposedAction(
            "Evaluate if offering bundled security solutions or integrations could be valuable to your customers.",
            7, 6),
          ProposedAction(
            "Communicate the benefits of your specific security components or integrations clearly to differentiate from broad platforms.",
            6, 5)
        ]),
      Medium,
      [
        "https://t.co/mtuNw5uy8T",
        "https://t.co/3ADhPb9M0U",
        "https://t.co/sA6T0teQlb",
        "https://t.co/H67nVxYK35",
        "https://t.co/uix54jCLf7",
        "https://t.co/FYwpc9cw3v",
        "https://t.co/1KXY5Otiif"
      ])

  const Insight2: AiInsight :=
    AiInsight(
      "Digital Guardian",
      "https://www.digitalguardian.com",
      Insight(
        "Transparent Pricing and Fortra Branding",
        "Digital Guardian is highlighting transparent pricing for data protection and is actively transitioning its presence to the parent company, Fortra. This suggests a strategic move towards clearer offerings and leveraging the parent brand.",
        [
          ProposedAction(
            "Ensure your own pricing structure is clear, easy to understand, and readily available to potential customers.",
            5, 3),
          ProposedAction(
            "Evaluate opportunities to align more closely with any parent company or key partners to leverage their brand recognition.",
            6, 5),
          ProposedAction(
            "Gather feedback on customer perception of your pricing and compare it to competitors emphasizing transparency.",
            4, 3)
        ]),
      Low,
      [
        "https://t.co/TD91CH5fRI",
        "https://www.linkedin.com/posts/digitalguardian_so-called-free-dlp-may-sound-enticing-activity-7303145006427426816-_nXk?utm_source=share&utm_medium=member_desktop&rcm=ACoAABqPb3sBQMB85qi1NJk8roTXHVauBU5tTcE",
        "https://www.linkedin.com/posts/digitalguardian_find-the-same-great-content-from-digital-activity-7313249995590090752-kmcy?utm_source=share&utm_medium=member_desktop&rcm=ACoAABqPb3sBQMB85qi1NJk8roTXHVauBU5tTcE"
      ])

  const Insight3: AiInsight :=
    AiInsight(
      "Zscaler",
      "https://www.zscaler.com/",
      Insight(
        "Expanding Leadership in Key Areas",
        "Zscaler has recently hired leaders for IoT GTM and VP of Product Strategy for ZDX. This signals a strategic focus on expanding their Zero Trust platform into the IoT/OT space and accelerating the development of their digital experience monitoring solution.",
        [
          ProposedAction(
            "Research the growing importance of IoT/OT security for SMBs in relevant industries.",
            5, 3),
          ProposedAction(
            "Evaluate your own product roadmap or service offerings to see if there are opportunities in IoT/OT security or digital experience monitoring.",
            7, 6)
        ]),
      Medium,
      [
        "https://www.linkedin.com/posts/zscaler_zscaler-could-not-be-more-excited-to-welcome-activity-7320936776963936258-SGnL?utm_source=share&utm_medium=member_desktop&rcm=ACoAABqPb3sBQMB85qi1NJk8roTXHVauBU5tTcE",
        "https://www.linkedin.com/posts/zscaler_zscalerlife-activity-7320170477300199426-hrAH?utm_source=share&utm_medium=member_desktop&rcm=ACoAABqPb3sBQMB85qi1NJk8roTXHVauBU5tTcE"
      ])

  const Insight4: AiInsight :=
    AiInsight(
      "Zscaler",
      "https://www.zscaler.com/",
      Insight(
        "Leveraging AI and Threat Research",
        "Zscaler is leveraging AI for new DLP features (discovery, Email DLP, GenAI prompt inspection) and their ThreatLabz team is publishing research on AI-driven phishing and specific threat actor tactics. This highlights their investment in advanced threat intelligence and proactive security measures. They were also recognized as a Leader in the IDC MarketScape: Worldwide DLP 2025.",
        [
          ProposedAction(
            "Investigate how AI can be integrated into your security offerings or internal security practices.",
            8, 7),
          ProposedAction(
            "Follow Zscaler ThreatLabz reports and other threat intelligence sources to stay informed about the latest attack trends relevant to your customers.",
            7, 3),
          ProposedAction(
            "Communicate your own expertise or capabilities in detecting and mitigating advanced threats, including AI-driven ones.",
            7, 5)
        ]),
      High,
      [
        "https://t.co/FodTJCIZuZ",
        "https://t.co/u44fRzuu17",
        "https://www.zscaler.com/press/zscaler-threatlabz-uncovers-surge-ai-driven-cyberattacks-targeting-critical-business",
        "https://t.co/YfFCBxNwxh",
        "https://t.co/5O5XAnpwcw",
        "https://www.zscaler.com/blogs/security-research/latest-mustang-panda-arsenal-paklog-corklog-and-splatcloak-p2",
        "https://t.co/MjdScypHDq"
      ])

  const Insight5: AiInsight :=
    AiInsight(
      "Zscaler",
      "https://www.zscaler.com/",
      Insight(
        "Promoting Zero Trust and Market Presence",
        "Zscaler is actively promoting the cost-saving and security benefits of their Zero Trust approach across various channels and sectors (e.g., automotive, government), while targeting potential customers in France between ages 30-60. They are also participating in major events like AWS Summit London. This indicates a strong marketing push and focus on demonstrating tangible value and broad applicability.",
        [
          ProposedAction(
            "Clearly articulate the specific security benefits and ROI of your own solutions or services for SMBs.",
            8, 6),
          ProposedAction(
            "Explore opportunities to participate in industry events or webinars to increase your market visibility and engage with potential customers.",
            7, 7),
          ProposedAction(
            "Develop marketing content that directly addresses how your solutions compare to or integrate with Zero Trust frameworks, positioning your unique value.",
            9, 8)
        ]),
      High,
      [
        "https://www.facebook.com/ads/library/?active_status=active&ad_type=all&country=ALL&is_targeted_country=false&media_type=all&q=Zscaler&search_type=keyword_unordered",
        "https://t.co/F1L6QHq2oX",
        "https://t.co/ZBmRD1ma0p",
        "https://t.co/3EWfRyNVMP",
        "https://go.aws/3IDZCAD"
      ])

  const Insight6: AiInsight :=
    AiInsight(
      "Forcepoint",
      "https://www.forcepoint.com/",
      Insight(
        "Acquired GetVisibility, Boosts AI Security",
        "Forcepoint recently acquired GetVisibility, integrating its AI Mesh, DSPM, and DDR capabilities. This significantly enhances their AI-powered data security offerings, focusing on real-time visibility, context, and control across hybrid cloud and GenAI environments.",
        [
          ProposedAction(
            "Research GetVisibility's AI Mesh and DSPM/DDR capabilities to understand Forcepoint's enhanced offering.",
            6, 4),
          ProposedAction(
            "Evaluate your own capabilities in AI-powered data discovery, classification, and data security posture management.",
            7, 5),
          ProposedAction(
            "Communicate your approach to AI-driven data security and how it differentiates from newly integrated competitor solutions.",
            8, 6)
        ]),
      High,
      [
        "https://www.linkedin.com/posts/forcepoint_its-official-getvisibility-is-now-part-activity-7314982308942368768-PmoV?utm_source=share&utm_medium=member_desktop&rcm=ACoAABqPb3sBQMB85qi1NJk8roTXHVauBU5tTcE",
        "https://www.linkedin.com/posts/forcepoint_at-forcepoint-we-have-been-working-hard-activity-7319062168493064194-lOVQ?utm_source=share&utm_medium=member_desktop&rcm=ACoAABqPb3sBQMB85qi1NJk8roTXHVauBU5tTcE",
        "https://bit.ly/41MXCRY"
      ])

  const Insight7: AiInsight :=
    AiInsight(
      "Forcepoint",
      "https://www.forcepoint.com/",
      Insight(
        "Evolving DLP for Cloud/GenAI",
        "Forcepoint is emphasizing the need for DLP to evolve to address modern threats in cloud and GenAI environments, highlighting features like behavioral context, user intent, and risk scoring. They are also promoting solutions for M365 security and addressing specific infostealer/ransomware threats.",
        [
          ProposedAction(
            "Assess your current DLP capabilities or data protection strategy against risks posed by cloud services and generative AI usage.",
            6, 4),
          ProposedAction(
            "Explore solutions that provide visibility and control over data use within common cloud applications like Microsoft 365.",
            7, 5),
          ProposedAction(
            "Educate your customers or team on the evolving threat landscape, including ransomware and infostealers, and how your solutions help mitigate them.",
            6, 4)
        ]),
      Medium,
      [
        "https://t.co/qESuqezHMg",
        "https://t.co/XNeutFlgA7",
        "https://t.co/XhF5QsE5vW",
        "https://t.co/jJtaMJqSnE",
        "https://t.co/PrZBbp9mVt",
        "https://www.linkedin.com/posts/forcepoint_false-positives-insider-risk-genai-threats-activity-7320838005034819584-g7F8?utm_source=share&utm_medium=member_desktop&rcm=ACoAABqPb3sBQMB85qi1NJk8roTXHVauBU5tTcE"
      ])

  const Insight8: AiInsight :=
    AiInsight(
      "Forcepoint",
      "https://www.forcepoint.com/",
      Insight(
        "Targeting Compliance and Events",
        "Forcepoint is addressing specific government compliance programs like the U.S. DOJ Data Security Program and actively participating in events like RSA Conference and GISEC Global. This shows a focus on the compliance market and maintaining visibility, particularly post-divestiture of their government business.",
        [
          ProposedAction(
            "Investigate the U.S. DOJ Data Security Program  or other relevant government compliance requirements if you serve clients in that sector.",
            5, 3),
          ProposedAction(
            "Evaluate participation in key industry events to connect with potential customers and partners.",
            7, 7),
          ProposedAction(
            "Monitor Forcepoint's activities in the government or regulated sectors to understand their go-to-market strategy.",
            5, 2)
        ]),
      Medium,
      [
        "https://www.linkedin.com/posts/forcepoint_the-us-department-of-justice-doj-has-activity-7321630846107410434-sOwH?utm_source=share&utm_medium=member_desktop&rcm=ACoAABqPb3sBQMB85qi1NJk8roTXHVauBU5tTcE",
        "https://www.forcepoint.com/blog/insights/doj-data-security-program-what-to-know",
        "https://www.linkedin.com/posts/forcepoint_with-over-750-companies-and-25000-attendees-activity-7320310413689061376-CN5u?utm_source=share&utm_medium=member_desktop&rcm=ACoAABqPb3sBQMB85qi1NJk8roTXHVauBU5tTcE"
      ])

  const Insight9: AiInsight :=
    AiInsight(
      "Forcepoint",
      "www.forcepoint.com",
      Insight(
        "Competitor Opportunities from Weaknesses",
        "Based on available data, Forcepoint faces challenges including complex setup, non-intuitive UI, higher pricing for SMBs, and inconsistent support. These identified weaknesses provide direct opportunities for competitors.",
        [
          ProposedAction(
            "Simplify your product's user interface and onboarding process to attract customers seeking ease of use.",
            9, 8),
          ProposedAction(
            "Develop pricing models that are more accessible and cost-effective for small to medium-sized businesses.",
            9, 7),
          ProposedAction(
            "Invest in providing superior, consistent customer support to build trust and address a key competitor weakness.",
            8, 6)
        ]),
      High,
      [
        "https://www.strac.io/proofpoint-vs-forcepoint",
        "https://www.nightfall.ai/compare/nightfall-vs-forcepoint",
        "https://www.peerspot.com/products/forcepoint-secure-web-gateway-pros-and-cons"
      ])

  function ActionsOf(x: AiInsight): seq<ProposedAction> {
    x.insight.proposedActions
  }

  /** All proposed actions, insight by insight, each insight's in its own order. */
  function AllActions(data: seq<AiInsight>): seq<ProposedAction> {
    FlatMap(data, ActionsOf)
  }

  /** The (value, effort) scores of a list of actions. */
  function Scores(actions: seq<ProposedAction>): seq<(int, int)> {
    if |actions| == 0 then [] else [(actions[0].value, actions[0].effort)] + Scores(actions[1..])
  }

  lemma {:induction false} ScoresConcat(a: seq<ProposedAction>, b: seq<ProposedAction>)
    ensures Scores(a + b) == Scores(a) + Scores(b)
  {
    if |a| > 0 {
      assert (a + b)[1..] == a[1..] + b;
      ScoresConcat(a[1..], b);
    } else {
      assert a + b == b;
    }
  }

  predicate QualifiesAsQuickWin(score: (int, int)) {
    score.0 >= 6 && score.1 <= 4
  }

  /** Ten insights: three about Digital Guardian, then three about Zscaler, then four about Forcepoint. */
  lemma CorpusCompanies()
    ensures |OrionInsights| == 10
    ensures forall i :: 0 <= i < 3 ==> OrionInsights[i].company == "Digital Guardian"
    ensures forall i :: 3 <= i < 6 ==> OrionInsights[i].company == "Zscaler"
    ensures forall i :: 6 <= i < 10 ==> OrionInsights[i].company == "Forcepoint"
  {
  }

  /** The impact of each insight, in dataset order. */
  lemma CorpusImpacts()
    ensures |OrionInsights| == 10
    ensures forall i :: 0 <= i < 10 ==>
      OrionInsights[i].impact == [Medium, Medium, Low, Medium, High, High, High, Medium, Medium, High][i]
  {
  }

  /** The Zscaler insight "Expanding Leadership in Key Areas" is the one with two actions; every other has three. */
  lemma CorpusActionCounts()
    ensures |OrionInsights| == 10
    ensures OrionInsights[3].company == "Zscaler"
    ensures OrionInsights[3].insight.title == "Expanding Leadership in Key Areas"
    ensures forall i :: 0 <= i < 10 ==> |OrionInsights[i].insight.proposedActions| == if i == 3 then 2 else 3
  {
  }

  /** The (value, effort) scores of every insight's actions, insight by insight. */
  const ScoreTable: seq<seq<(int, int)>> := [
      [(6, 3), (7, 4), (8, 5)],
      [(5, 4), (7, 6), (6, 5)],
      [(5, 3), (6, 5), (4, 3)],
      [(5, 3), (7, 6)],
      [(8, 7), (7, 3), (7, 5)],
      [(8, 6), (7, 7), (9, 8)],
      [(6, 4), (7, 5), (8, 6)],
      [(6, 4), (7, 5), (6, 4)],
      [(5, 3), (7, 7), (5, 2)],
      [(9, 8), (9, 7), (8, 6)]
  ]

  lemma InsightScores0()
    ensures Scores(Insight0.insight.proposedActions) == ScoreTable[0]
  {
  }

  lemma InsightScores1()
    ensures Scores(Insight1.insight.proposedActions) == ScoreTable[1]
  {
  }

  lemma InsightScores2()
    ensures Scores(Insight2.insight.proposedActions) == ScoreTable[2]
  {
  }

  lemma InsightScores3()
    ensures Scores(Insight3.insight.proposedActions) == ScoreTable[3]
  {
  }

  lemma InsightScores4()
    ensures Scores(Insight4.insight.proposedActions) == ScoreTable[4]
  {
  }

  lemma InsightScores5()
    ensures Scores(Insight5.insight.proposedActions) == ScoreTable[5]
  {
  }

  lemma InsightScores6()
    ensures Scores(Insight6.insight.proposedActions) == ScoreTable[6]
  {
  }

  lemma InsightScores7()
    ensures Scores(Insight7.insight.proposedActions) == ScoreTable[7]
  {
  }

  lemma InsightScores8()
    ensures Scores(Insight8.insight.proposedActions) == ScoreTable[8]
  {
  }

  lemma InsightScores9()
    ensures Scores(Insight9.insight.proposedActions) == ScoreTable[9]
  {
  }

  /** The table's rows, one after the other. */
  function Flatten<T>(rows: seq<seq<T>>): seq<T> {
    if |rows| == 0 then [] else rows[0] + Flatten(rows[1..])
  }

  lemma {:induction false} ScoresLength(actions: seq<ProposedAction>)
    ensures |Scores(actions)| == |actions|
  {
    if |actions| > 0 {
      ScoresLength(actions[1..]);
    }
  }

  lemma {:induction false} ScoresAt(actions: seq<ProposedAction>, j: nat)
    requires j < |actions|
    ensures |Scores(actions)| == |actions|
    ensures Scores(actions)[j] == (actions[j].value, actions[j].effort)
  {
    ScoresLength(actions);
    if j > 0 {
      ScoresAt(actions[1..], j - 1);
    }
  }

  /** Scoring the actions of a list of insights is scoring each insight's actions in turn. */
  lemma {:induction false} ScoresOfAllActions(data: seq<AiInsight>, rows: seq<seq<(int, int)>>)
    requires |data| == |rows|
    requires forall j :: 0 <= j < |data| ==> Scores(data[j].insight.proposedActions) == rows[j]
    ensures Scores(AllActions(data)) == Flatten(rows)
  {
    if |data| > 0 {
      ScoresOfAllActions(data[1..], rows[1..]);
      ScoresConcat(data[0].insight.proposedActions, AllActions(data[1..]));
    }
  }

  function InsightScores(x: AiInsight): seq<(int, int)> {
    Scores(x.insight.proposedActions)
  }

  /** The scores of all actions, insight by insight. */
  lemma {:induction false} ScoresByInsight(data: seq<AiInsight>)
    ensures Scores(AllActions(data)) == FlatMap(data, InsightScores)
  {
    if |data| > 0 {
      ScoresByInsight(data[1..]);
      ScoresConcat(data[0].insight.proposedActions, AllActions(data[1..]));
    }
  }

  /** The 29 scores of the dataset, in dataset order. */
  lemma CorpusScores()
    ensures Scores(AllActions(OrionInsights)) == Flatten(ScoreTable)
    ensures |AllActions(OrionInsights)| == 29
  {
    forall j | 0 <= j < |OrionInsights|
      ensures Scores(OrionInsights[j].insight.proposedActions) == ScoreTable[j]
    {
      if j == 0 { InsightScores0(); }
      else if j == 1 { InsightScores1(); }
      else if j == 2 { InsightScores2(); }
      else if j == 3 { InsightScores3(); }
      else if j == 4 { InsightScores4(); }
      else if j == 5 { InsightScores5(); }
      else if j == 6 { InsightScores6(); }
      else if j == 7 { InsightScores7(); }
      else if j == 8 { InsightScores8(); }
      else { InsightScores9(); }
    }
    ScoresOfAllActions(OrionInsights, ScoreTable);
    ScoresLength(AllActions(OrionInsights));
  }

  /** Every action scores between 1 and 10 for value and for effort, so no ratio divides by zero. */
  lemma CorpusScoresInRange()
    ensures forall a :: a in AllActions(OrionInsights) ==> 1 <= a.value <= 10 && 1 <= a.effort <= 10
  {
    CorpusScores();
    TableScoresInRange();
    InRangeFromScores(AllActions(OrionInsights));
  }

  predicate ScoreInRange(score: (int, int)) {
    1 <= score.0 <= 10 && 1 <= score.1 <= 10
  }

  lemma TableScoresInRange()
    ensures forall score :: score in Flatten(ScoreTable) ==> ScoreInRange(score)
  {
    RowsInRange(0);
    assert ScoreTable[0..] == ScoreTable;
  }

  lemma {:induction false} RowsInRange(i: nat)
    requires i <= |ScoreTable|
    ensures forall score :: score in Flatten(ScoreTable[i..]) ==> ScoreInRange(score)
    decreases |ScoreTable| - i
  {
    if i < |ScoreTable| {
      RowsInRange(i + 1);
      Row(i);
      assert ScoreTable[i..][1..] == ScoreTable[i + 1..];
    }
  }

  /** What holds of every score holds of every action's value and effort. */
  lemma InRangeFromScores(actions: seq<ProposedAction>)
    requires forall score :: score in Scores(actions) ==> ScoreInRange(score)
    ensures forall a :: a in actions ==> 1 <= a.value <= 10 && 1 <= a.effort <= 10
  {
    forall a | a in actions
      ensures 1 <= a.value <= 10 && 1 <= a.effort <= 10
    {
      var j: int :| 0 <= j < |actions| && actions[j] == a;
      ScoresAt(actions, j);
      assert ScoreInRange(Scores(actions)[j]);
    }
  }

  /** Exactly six actions have value at least 6 and effort at most 4. */
  lemma CorpusQuickWinScores()
    ensures Filter(Scores(AllActions(OrionInsights)), QualifiesAsQuickWin)
         == [(6, 3), (7, 4), (7, 3), (6, 4), (6, 4), (6, 4)]
  {
    CorpusScores();
    TableQuickWins();
  }

  lemma TableQuickWins()
    ensures Filter(Flatten(ScoreTable), QualifiesAsQuickWin)
         == [(6, 3), (7, 4), (7, 3), (6, 4), (6, 4), (6, 4)]
  {
    QuickWinRows(0);
    assert ScoreTable[0..] == ScoreTable;
    assert QuickWinsByRow[0..] == QuickWinsByRow;
    QuickWinsFlattened();
  }

  lemma QuickWinsFlattened()
    ensures Flatten(QuickWinsByRow) == [(6, 3), (7, 4), (7, 3), (6, 4), (6, 4), (6, 4)]
  {
  }

  /** The qualifying scores of each row of the table. */
  const QuickWinsByRow: seq<seq<(int, int)>> := [
      [(6, 3), (7, 4)], [], [], [], [(7, 3)], [], [(6, 4)], [(6, 4), (6, 4)], [], []
  ]

  lemma Row0()
    ensures Filter(ScoreTable[0], QualifiesAsQuickWin) == QuickWinsByRow[0]
    ensures Filter(ScoreTable[0], ScoreInRange) == ScoreTable[0]
  {
    assert ScoreTable[0] == [(6, 3), (7, 4), (8, 5)];
  }

  lemma Row1()
    ensures Filter(ScoreTable[1], QualifiesAsQuickWin) == QuickWinsByRow[1]
    ensures Filter(ScoreTable[1], ScoreInRange) == ScoreTable[1]
  {
    assert ScoreTable[1] == [(5, 4), (7, 6), (6, 5)];
  }

  lemma Row2()
    ensures Filter(ScoreTable[2], QualifiesAsQuickWin) == QuickWinsByRow[2]
    ensures Filter(ScoreTable[2], ScoreInRange) == ScoreTable[2]
  {
    assert ScoreTable[2] == [(5, 3), (6, 5), (4, 3)];
  }

  lemma Row3()
    ensures Filter(ScoreTable[3], QualifiesAsQuickWin) == QuickWinsByRow[3]
    ensures Filter(ScoreTable[3], ScoreInRange) == ScoreTable[3]
  {
    assert ScoreTable[3] == [(5, 3), (7, 6)];
  }

  lemma Row4()
    ensures Filter(ScoreTable[4], QualifiesAsQuickWin) == QuickWinsByRow[4]
    ensures Filter(ScoreTable[4], ScoreInRange) == ScoreTable[4]
  {
    assert ScoreTable[4] == [(8, 7), (7, 3), (7, 5)];
  }

  lemma Row5()
    ensures Filter(ScoreTable[5], QualifiesAsQuickWin) == QuickWinsByRow[5]
    ensures Filter(ScoreTable[5], ScoreInRange) == ScoreTable[5]
  {
    assert ScoreTable[5] == [(8, 6), (7, 7), (9, 8)];
  }

  lemma Row6()
    ensures Filter(ScoreTable[6], QualifiesAsQuickWin) == QuickWinsByRow[6]
    ensures Filter(ScoreTable[6], ScoreInRange) == ScoreTable[6]
  {
    assert ScoreTable[6] == [(6, 4), (7, 5), (8, 6)];
  }

  lemma Row7()
    ensures Filter(ScoreTable[7], QualifiesAsQuickWin) == QuickWinsByRow[7]
    ensures Filter(ScoreTable[7], ScoreInRange) == ScoreTable[7]
  {
    assert ScoreTable[7] == [(6, 4), (7, 5), (6, 4)];
  }

  lemma Row8()
    ensures Filter(ScoreTable[8], QualifiesAsQuickWin) == QuickWinsByRow[8]
    ensures Filter(ScoreTable[8], ScoreInRange) == ScoreTable[8]
  {
    assert ScoreTable[8] == [(5, 3), (7, 7), (5, 2)];
  }

  lemma Row9()
    ensures Filter(ScoreTable[9], QualifiesAsQuickWin) == QuickWinsByRow[9]
    ensures Filter(ScoreTable[9], ScoreInRange) == ScoreTable[9]
  {
    assert ScoreTable[9] == [(9, 8), (9, 7), (8, 6)];
  }

  /** The facts about one row of the table. */
  lemma Row(k: nat)
    requires k < |ScoreTable|
    ensures Filter(ScoreTable[k], QualifiesAsQuickWin) == QuickWinsByRow[k]
    ensures Filter(ScoreTable[k], ScoreInRange) == ScoreTable[k]
  {
    if k == 0 { Row0(); }
    else if k == 1 { Row1(); }
    else if k == 2 { Row2(); }
    else if k == 3 { Row3(); }
    else if k == 4 { Row4(); }
    else if k == 5 { Row5(); }
    else if k == 6 { Row6(); }
    else if k == 7 { Row7(); }
    else if k == 8 { Row8(); }
    else { Row9(); }
  }

  lemma {:induction false} QuickWinRows(i: nat)
    requires i <= |ScoreTable|
    ensures Filter(Flatten(ScoreTable[i..]), QualifiesAsQuickWin) == Flatten(QuickWinsByRow[i..])
    decreases |ScoreTable| - i
  {
    if i < |ScoreTable| {
      QuickWinRows(i + 1);
      Row(i);
      assert ScoreTable[i..][1..] == ScoreTable[i + 1..];
      assert QuickWinsByRow[i..][1..] == QuickWinsByRow[i + 1..];
      FilterConcat(ScoreTable[i], Flatten(ScoreTable[i + 1..]), QualifiesAsQuickWin);
    }
  }
}

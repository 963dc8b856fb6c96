/**
  The cards a chat answer may carry, and the reader that takes an embedded
  metadata region out of a streamed chunk.

  JSON parsing (the grammar of section 2 of RFC 8259) is a parameter
  `parse` that answers `None` where `JSON.parse` throws.
 */
module Cards {
  import opened Wrappers
  import opened Strings

  // ---------------------------------------------------------------------------
  // Cards
  // ---------------------------------------------------------------------------

  datatype ActionItem = ActionItem(title: string, description: Option<string>)

  /** An item of a quick-wins or high-value-actions card; scores are JS numbers. */
  datatype ScoredItem = ScoredItem(title: string, description: Option<string>,
                                   value: Option<real>, effort: Option<real>, ratio: Option<real>)

  datatype CompetitiveItem = CompetitiveItem(title: string, description: Option<string>,
                                             competitor: Option<string>, advantage: Option<string>)

  /** One of the five card kinds; only the assistance card holds suggestions instead of items. */
  datatype ChatCard =
    | ActionListCard(title: string, actionItems: seq<ActionItem>)
    | QuickWinsCard(title: string, scoredItems: seq<ScoredItem>)
    | HighValueActionsCard(title: string, scoredItems: seq<ScoredItem>)
    | CompetitiveAnalysisCard(title: string, competitiveItems: seq<CompetitiveItem>)
    | AssistanceSuggestionsCard(title: string, suggestions: seq<string>)

  datatype ChatMetadata = ChatMetadata(timestamp: string, cards: seq<ChatCard>)

  const CardTypes: seq<string> :=
    ["action-list", "quick-wins", "high-value-actions", "competitive-analysis", "assistance-suggestions"]

  /** The position of a card's kind in `CardTypes`. */
  function Kind(c: ChatCard): (k: nat)
    ensures k < |CardTypes|
  {
    match c
    case ActionListCard(_, _) => 0
    case QuickWinsCard(_, _) => 1
    case HighValueActionsCard(_, _) => 2
    case CompetitiveAnalysisCard(_, _) => 3
    case AssistanceSuggestionsCard(_, _) => 4
  }

  /** The `type` tag of a card. */
  function CardType(c: ChatCard): (r: string)
    ensures r in CardTypes
    ensures r == "assistance-suggestions" <==> c.AssistanceSuggestionsCard?
  {
    match c
    case ActionListCard(_, _) => "action-list"
    case QuickWinsCard(_, _) => "quick-wins"
    case HighValueActionsCard(_, _) => "high-value-actions"
    case CompetitiveAnalysisCard(_, _) => "competitive-analysis"
    case AssistanceSuggestionsCard(_, _) => "assistance-suggestions"
  }

  /** The kind a tag names, if it names one. */
  function KindOfTag(tag: string): (r: Option<nat>)
    ensures r.Some? ==> r.value < |CardTypes| && CardTypes[r.value] == tag
    ensures r.None? ==> tag !in CardTypes
  {
    if tag == "action-list" then Some(0)
    else if tag == "quick-wins" then Some(1)
    else if tag == "high-value-actions" then Some(2)
    else if tag == "competitive-analysis" then Some(3)
    else if tag == "assistance-suggestions" then Some(4)
    else None
  }

  /** The tag tells the kind: reading a card's tag back gives its kind, so distinct kinds have distinct tags. */
  lemma TagNamesKind(c: ChatCard, d: ChatCard)
    ensures KindOfTag(CardType(c)) == Some(Kind(c))
    ensures CardType(c) == CardType(d) <==> Kind(c) == Kind(d)
  {
  }

  // ---------------------------------------------------------------------------
  // Metadata markers
  // ---------------------------------------------------------------------------

  const Open := "__METADATA__"
  const Close := "__END_METADATA__"

  /** What the reader returns: the text, and the parsed payload if there was one. */
  datatype Parsed<J> = Parsed(content: string, metadata: Option<J>)

  /**
    The region `/__METADATA__(.*?)__END_METADATA__/s` matches, as the start
    of its open marker and the start of its close marker.
   */
  function MarkedRegion(chunk: string): Option<(nat, nat)> {
    match FindFrom(chunk, Open, 0)
    case None => None
    case Some(i) =>
      match FindFrom(chunk, Close, i + |Open|)
      case None => None
      case Some(j) => Some((i, j))
  }

  /**
    `MarkedRegion` is the match of the regular expression: an open marker,
    then the nearest close marker after it, starting as far left as any
    match can; and there is none exactly when no close marker follows any
    open marker.
   */
  lemma MarkedRegionIsMatch(chunk: string)
    ensures var r := MarkedRegion(chunk);
      r.Some? ==> var (i, j) := r.value;
        && OccursAt(chunk, Open, i) && i + |Open| <= j && OccursAt(chunk, Close, j)
        && (forall k :: 0 <= k < i ==> !OccursAt(chunk, Open, k))
        && (forall k :: i + |Open| <= k < j ==> !OccursAt(chunk, Close, k))
    ensures MarkedRegion(chunk).None? <==>
      forall i, j :: OccursAt(chunk, Open, i) && i + |Open| <= j ==> !OccursAt(chunk, Close, j)
  {
  }

  /**
    Takes the first marked region out of a chunk and parses its payload.
    Without a region, or with a payload that does not parse, the chunk comes
    back unchanged and without metadata.
   */
  function ParseStreamMetadata<J>(chunk: string, parse: string -> Option<J>): (r: Parsed<J>)
    ensures r.metadata.None? ==> r.content == chunk
    ensures r.metadata.Some? ==> (
      && MarkedRegion(chunk).Some?
      && var (i, j) := MarkedRegion(chunk).value;
        && r.metadata == parse(chunk[i + |Open|..j])
        && r.content == chunk[..i] + chunk[j + |Close|..]
        && |r.content| == |chunk| - (j + |Close| - i))
  {
    match MarkedRegion(chunk)
    case None => Parsed(chunk, None)
    case Some((i, j)) =>
      var payload := chunk[i + |Open|..j];
      match parse(payload)
      case None => Parsed(chunk, None)
      case Some(m) => Parsed(chunk[..i] + chunk[j + |Close|..], Some(m))
  }

  /** A chunk without an open marker, or without a close marker, passes through. */
  lemma {:induction false} NoMarkerPassesThrough<J>(chunk: string, parse: string -> Option<J>)
    requires !Contains(chunk, Open) || !Contains(chunk, Close)
    ensures ParseStreamMetadata(chunk, parse) == Parsed(chunk, None)
  {
    if MarkedRegion(chunk).Some? {
      var (i, j) := MarkedRegion(chunk).value;
      ContainsWitness(chunk, Open, i);
      ContainsWitness(chunk, Close, j);
    }
  }

  /** A payload that does not parse leaves the chunk as it is, and nothing is thrown. */
  lemma {:induction false} InvalidPayloadPassesThrough<J>(chunk: string, parse: string -> Option<J>)
    requires MarkedRegion(chunk).Some?
    requires parse(chunk[MarkedRegion(chunk).value.0 + |Open|..MarkedRegion(chunk).value.1]).None?
    ensures ParseStreamMetadata(chunk, parse) == Parsed(chunk, None)
  {
  }

  /** Where the region of a chunk built around a payload lies. */
  lemma {:induction false} RegionAround(prefix: string, payload: string, suffix: string)
    requires !Contains(prefix + Open[..|Open| - 1], Open)
    requires !Contains(payload + Close[..|Close| - 1], Close)
    ensures MarkedRegion(prefix + Open + payload + Close + suffix)
         == Some((|prefix|, |prefix| + |Open| + |payload|))
  {
    var chunk := prefix + Open + payload + Close + suffix;
    FindDelimited(prefix, Open, payload, Close, suffix);
    RegionFromSearches(chunk, |prefix|, |prefix| + |Open| + |payload|);
  }

  lemma {:induction false} RegionFromSearches(chunk: string, i: nat, j: nat)
    requires FindFrom(chunk, Open, 0) == Some(i) && FindFrom(chunk, Close, i + |Open|) == Some(j)
    ensures MarkedRegion(chunk) == Some((i, j))
  {
  }

  /**
    Round trip. If no open marker starts inside `prefix` (not even one that
    runs into the open marker placed after it) and no close marker starts
    inside `payload`, the reader returns the parsed payload and the text
    around the region, whatever `suffix` holds.
   */
  lemma {:induction false} RoundTrip<J>(prefix: string, payload: string, suffix: string, parse: string -> Option<J>)
    requires !Contains(prefix + Open[..|Open| - 1], Open)
    requires !Contains(payload + Close[..|Close| - 1], Close)
    requires parse(payload).Some?
    ensures ParseStreamMetadata(prefix + Open + payload + Close + suffix, parse)
         == Parsed(prefix + suffix, parse(payload))
  {
    var chunk := prefix + Open + payload + Close + suffix;
    RegionAround(prefix, payload, suffix);
    DelimitedParts(prefix, Open, payload, Close, suffix);
    ParseAtRegion(chunk, |prefix|, |prefix| + |Open| + |payload|, parse);
  }

  lemma {:induction false} ParseAtRegion<J>(chunk: string, i: nat, j: nat, parse: string -> Option<J>)
    requires MarkedRegion(chunk) == Some((i, j))
    requires parse(chunk[i + |Open|..j]).Some?
    ensures ParseStreamMetadata(chunk, parse) == Parsed(chunk[..i] + chunk[j + |Close|..], parse(chunk[i + |Open|..j]))
  {
  }

  /**
    Only the first region goes: a second marked region after it stays in
    the content, markers and all.
   */
  lemma {:induction false} OnlyFirstRegionRemoved<J>(prefix: string, payload: string, between: string, second: string,
                                                     after: string, parse: string -> Option<J>)
    requires !Contains(prefix + Open[..|Open| - 1], Open)
    requires !Contains(payload + Close[..|Close| - 1], Close)
    requires parse(payload).Some?
    ensures var r := ParseStreamMetadata(prefix + Open + payload + Close + (between + (Open + second + Close) + after), parse);
      r.metadata == parse(payload) && Contains(r.content, Open + second + Close)
  {
    var rest := between + (Open + second + Close) + after;
    RoundTrip(prefix, payload, rest, parse);
    ContainsInfix(between, Open + second + Close, after);
    ContainsPrepend(prefix, rest, Open + second + Close);
  }

  /**
    The round trip needs more than "no open marker in `prefix`": with the
    prefix `__METADATA` the first match starts inside the prefix, so the
    reader does not give back `prefix + suffix`.
   */
  lemma {:induction false} PrefixEndingInHalfMarker<J>(parse: string -> Option<J>)
    ensures !Contains("__METADATA", Open)
    ensures ParseStreamMetadata("__METADATA" + Open + "1" + Close, parse).content != "__METADATA"
  {
    var chunk := "__METADATA" + Open + "1" + Close;
    assert chunk[0..12] == Open;
    FindFromFirst(chunk, Open, 0, 0);
    // a close marker right after the open marker would make the content ten characters long
    assert chunk[13] == 'E' != Close[0];
    MarkedRegionIsMatch(chunk);
  }
}

/** Threshold compaction of the model input (`ConversationCompactor`).

    The stored conversation is never rewritten.  A view is either the whole
    conversation or what the player said, one summary, and the verbatim items
    from the boundary on.  An item's fingerprint is taken to identify the item. */
module ConversationCompactor {
  import opened Decimal
  import opened Options
  import opened ConversationItems
  import opened CompactionBoundary
  import opened PlayerMessages

  const UNSEEN_STATIC_TOKENS := 16_000
  const MAX_ITEM_CHARS := 32_000

  datatype Compaction = Compaction(anchor: Item, summary: string)

  /** `keep` turns the previous summary, the summarizer's reply and the number of
      summarized items into the summary that is stored. */
  datatype Settings = Settings(thresholdTokens: nat, tailChars: nat, chars: Item -> nat,
                               keep: (string, string, nat) -> string) {
    function MinGainChars(): nat {
      var share := thresholdTokens * 3 / 8;
      if tailChars <= share then tailChars else share
    }
  }

  // -- the summary that is stored ------------------------------------------------------

  function Omission(older: nat): string {
    "[" + Digits(older) + " older conversation items could not be summarized and are omitted. "
    + "Use the conversation archive tools if an older exact exchange is needed.]"
  }

  /** A text over the item limit is cut, and says by how much. */
  function CutToItem(full: string): string {
    if |full| > MAX_ITEM_CHARS
    then full[..MAX_ITEM_CHARS] + "\n[" + Digits(|full| - MAX_ITEM_CHARS)
         + " further characters of this summary omitted]"
    else full
  }

  /** The reply, or on a failed or empty reply the previous summary with a notice
      that the older items are gone; cut to the item limit. */
  function KeptSummary(previous: string, reply: string, older: nat): string {
    CutToItem(if reply != "" then reply else Before(previous) + Omission(older))
  }

  /** The text is kept whole, or as far as an item may go. */
  predicate KeptAsFarAsItGoes(text: string, kept: string) {
    if |text| <= MAX_ITEM_CHARS then text <= kept else |kept| > MAX_ITEM_CHARS && text[..MAX_ITEM_CHARS] <= kept
  }

  lemma CutKeeps(text: string, full: string)
    requires text <= full
    ensures KeptAsFarAsItGoes(text, CutToItem(full))
    ensures |text| <= MAX_ITEM_CHARS ==> CutToItem(text) == text
  {
    if |full| > MAX_ITEM_CHARS {
      CutIsLonger(full);
      assert full[..MAX_ITEM_CHARS] <= CutToItem(full);
    }
  }

  lemma CutIsLonger(full: string)
    requires |full| > MAX_ITEM_CHARS
    ensures |CutToItem(full)| > MAX_ITEM_CHARS && CutToItem(full)[..MAX_ITEM_CHARS] == full[..MAX_ITEM_CHARS]
  {
  }

  /** What stands in front of a notice. */
  function Before(previous: string): string {
    if previous != "" then previous + "\n" else ""
  }

  lemma NoticeFollows(previous: string, notice: string)
    ensures KeptAsFarAsItGoes(previous, CutToItem(Before(previous) + notice))
    ensures KeptAsFarAsItGoes(Before(previous) + notice, CutToItem(Before(previous) + notice))
  {
    CutKeeps(Before(previous) + notice, Before(previous) + notice);
    CutKeeps(previous, Before(previous) + notice);
  }

  /** What the stored summary says: the reply, and nothing else when that fits; without
      one everything the summary before it said, and then that the older items are gone. */
  lemma SummaryKeeps(previous: string, reply: string, older: nat)
    ensures reply != "" ==> KeptAsFarAsItGoes(reply, KeptSummary(previous, reply, older))
    ensures reply != "" && |reply| <= MAX_ITEM_CHARS ==> KeptSummary(previous, reply, older) == reply
    ensures reply == "" ==> KeptAsFarAsItGoes(previous, KeptSummary(previous, reply, older))
    ensures reply == "" ==>
              KeptAsFarAsItGoes(Before(previous) + Omission(older), KeptSummary(previous, reply, older))
  {
    if reply != "" {
      CutKeeps(reply, reply);
    } else {
      var notice := Omission(older);
      NoticeFollows(previous, notice);
    }
  }

  function SummaryItem(summary: string): (item: Item)
    ensures IsSummary(item)
  {
    Item("user", "", None, None, Text(SUMMARY_HEADER + "\n" + summary))
  }

  // -- finding the boundary again -------------------------------------------------------

  /** The first item equal to the anchor: earlier equal items win. */
  function AnchorIndex(items: seq<Item>, anchor: Item): (r: Option<nat>)
    ensures r.Some? ==> r.value < |items| && items[r.value] == anchor
    ensures forall i :: 0 <= i < (if r.Some? then r.value else |items|) ==> items[i] != anchor
  {
    if items == [] then None
    else if items[0] == anchor then Some(0)
    else
      match AnchorIndex(items[1..], anchor)
      case None => None
      case Some(i) => Some(i + 1)
  }

  function Start(c: Option<Compaction>, items: seq<Item>): Option<nat> {
    if c.None? then None else AnchorIndex(items, c.value.anchor)
  }

  /** A compaction whose anchor is gone is dropped. */
  function Located(c: Option<Compaction>, items: seq<Item>): Option<Compaction> {
    if Start(c, items).None? then None else c
  }

  function First(c: Option<Compaction>, items: seq<Item>): (first: nat)
    ensures first <= |items|
  {
    var start := Start(c, items);
    if start.None? then 0 else start.value
  }

  function PreviousSummary(c: Option<Compaction>): string {
    if c.Some? then c.value.summary else ""
  }

  // -- one request: moving the boundary and rendering ------------------------------------

  /** A boundary a request may move to. */
  predicate Allowed(c: Option<Compaction>, items: seq<Item>, tail: Option<nat>) {
    tail.Some? ==> First(c, items) < tail.value < |items|
  }

  function Moved(cfg: Settings, c: Option<Compaction>, items: seq<Item>, tail: Option<nat>,
                 reply: string): Option<Compaction>
    requires Allowed(c, items, tail)
  {
    if tail.None? then Located(c, items)
    else Some(Compaction(items[tail.value],
                         cfg.keep(PreviousSummary(Located(c, items)), reply, tail.value - First(c, items))))
  }

  function Cut(items: seq<Item>, start: nat, summary: string): seq<Item>
    requires start <= |items|
  {
    Messages(items[..start]) + [SummaryItem(summary)] + items[start..]
  }

  /** A compacted view, piece by piece: what the player said before the boundary, one user
      item with the header and the summary, and every item from the boundary on. */
  lemma CutIs(items: seq<Item>, start: nat, summary: string)
    requires start <= |items|
    ensures var (view, n) := (Cut(items, start, summary), |Messages(items[..start])|);
            && |view| == n + 1 + |items| - start && view[..n] == Messages(items[..start])
            && view[n].role == "user" && view[n].content == Text(SUMMARY_HEADER + "\n" + summary)
            && view[n + 1..] == items[start..]
  {
  }

  /** The items to send after a request that moved to `tail`, if it moved. */
  function Shown(cfg: Settings, c: Option<Compaction>, items: seq<Item>, tail: Option<nat>, reply: string): seq<Item>
    requires Allowed(c, items, tail)
  {
    if tail.Some? then Cut(items, tail.value, Moved(cfg, c, items, tail, reply).value.summary)
    else
      var start := Start(c, items);
      if start.None? then items else Cut(items, start.value, c.value.summary)
  }

  // -- when a request compacts -------------------------------------------------------------

  datatype State = State(compaction: Option<Compaction>, lastViewChars: Option<nat>, lastInputTokens: Option<nat>)

  const FRESH := State(None, None, None)

  /** Python's `max(0, int(x / 3.0))` for a whole number `x`. */
  function Thirds(x: int): nat {
    if x <= 0 then 0 else x / 3
  }

  /** The calibrated estimate once a provider has reported a size, else a rough one. */
  function EstimateTokens(lastViewChars: Option<nat>, lastInputTokens: Option<nat>, viewChars: nat,
                          staticChars: nat): nat {
    if lastInputTokens.Some? && lastViewChars.Some?
    then Thirds(3 * lastInputTokens.value + viewChars - lastViewChars.value)
    else (viewChars + staticChars) / 3 + UNSEEN_STATIC_TOKENS
  }

  function LocatedTokens(st: State, items: seq<Item>): Option<nat> {
    if st.compaction.Some? && Start(st.compaction, items).None? then None else st.lastInputTokens
  }

  predicate Over(cfg: Settings, st: State, items: seq<Item>, staticChars: nat, liveChars: nat) {
    && cfg.thresholdTokens != 0
    && EstimateTokens(st.lastViewChars, LocatedTokens(st, items),
                      Chars(Shown(cfg, st.compaction, items, None, ""), cfg.chars) + liveChars, staticChars)
       >= cfg.thresholdTokens
  }

  /** The boundary a request moves to, when it compacts at all. */
  ghost function NewBoundary(cfg: Settings, st: State, items: seq<Item>, staticChars: nat,
                             liveChars: nat): (tail: Option<nat>)
    ensures Allowed(st.compaction, items, tail)
  {
    if Over(cfg, st, items, staticChars, liveChars) then GainfulTail(cfg, items, First(st.compaction, items)) else None
  }

  /** The boundary that splits nothing, unless it would summarize too little. */
  ghost function GainfulTail(cfg: Settings, items: seq<Item>, first: nat): (tail: Option<nat>)
    ensures tail.Some? ==> first < tail.value < |items|
  {
    var tail := TailBoundary(items, first, cfg.tailChars, cfg.chars);
    if tail.None? || Chars(items[first..tail.value], cfg.chars) < cfg.MinGainChars() then None else tail
  }

  lemma SameWithoutMove(cfg: Settings, c: Option<Compaction>, items: seq<Item>, reply: string)
    ensures Shown(cfg, c, items, None, reply) == Shown(cfg, c, items, None, "")
    ensures Start(Located(c, items), items) == Start(c, items) && First(Located(c, items), items) == First(c, items)
    ensures forall tail: nat :: First(c, items) < tail < |items| ==>
              Moved(cfg, Located(c, items), items, Some(tail), reply) == Moved(cfg, c, items, Some(tail), reply)
  {
  }

  /** What a request is taken to cost.  Once a provider reported a size: that, and a token
      for every full three characters the view has grown since, or less one for every
      three or part of three it has shrunk, but never below nothing.  Before that a third
      of all characters and a flat amount. */
  lemma EstimateIs(before: nat, reported: nat, viewChars: nat, staticChars: nat)
    ensures var tokens := EstimateTokens(Some(before), Some(reported), viewChars, staticChars);
            && (viewChars >= before ==> 3 * (tokens - reported) <= viewChars - before < 3 * (tokens - reported) + 3)
            && (viewChars < before && before - viewChars <= 3 * reported ==>
                  3 * (reported - tokens) - 3 < before - viewChars <= 3 * (reported - tokens))
            && (viewChars < before && before - viewChars > 3 * reported ==> tokens == 0)
    ensures EstimateTokens(None, Some(reported), viewChars, staticChars)
            == EstimateTokens(Some(before), None, viewChars, staticChars)
            == EstimateTokens(None, None, viewChars, staticChars) == (viewChars + staticChars) / 3 + 16000
  {
  }

  /** A request compacts exactly when a threshold is set and reached, some boundary splits
      nothing, and what lies before it is worth it: the budget of the tail, or three
      eighths of the threshold, whichever is less. */
  lemma CompactsIff(cfg: Settings, st: State, items: seq<Item>, staticChars: nat, liveChars: nat)
    ensures var (first, tail) := (First(st.compaction, items), NewBoundary(cfg, st, items, staticChars, liveChars));
            var view := Shown(cfg, st.compaction, items, None, "");
            var lost := st.compaction.Some? && Start(st.compaction, items).None?;
            var boundary := TailBoundary(items, first, cfg.tailChars, cfg.chars);
            && (tail.Some? <==>
                  && cfg.thresholdTokens > 0 && boundary.Some?
                  && cfg.thresholdTokens <= EstimateTokens(st.lastViewChars, if lost then None else st.lastInputTokens,
                                                           Chars(view, cfg.chars) + liveChars, staticChars)
                  && first <= boundary.value <= |items|
                  && (Chars(items[first..boundary.value], cfg.chars) >= cfg.tailChars
                      || Chars(items[first..boundary.value], cfg.chars) >= cfg.thresholdTokens * 3 / 8))
            && (tail.Some? ==> tail == boundary)
  {
  }

  class Compactor {
    const settings: Settings
    var compaction: Option<Compaction>
    var lastViewChars: Option<nat>
    var lastInputTokens: Option<nat>

    ghost function Abs(): State reads this { State(compaction, lastViewChars, lastInputTokens) }

    constructor (thresholdTokens: int, tailChars: int, chars: Item -> nat)
      ensures Abs() == FRESH
      ensures settings == Settings(if thresholdTokens < 0 then 0 else thresholdTokens,
                                   if tailChars < 1 then 1 else tailChars, chars, KeptSummary)
    {
      settings := Settings(if thresholdTokens < 0 then 0 else thresholdTokens,
                           if tailChars < 1 then 1 else tailChars, chars, KeptSummary);
      compaction, lastViewChars, lastInputTokens := None, None, None;
    }

    method NoteUsage(inputTokens: int)
      modifies this
      ensures Abs() == Noted(old(Abs()), inputTokens)
    {
      if inputTokens > 0 && lastViewChars.Some? {
        lastInputTokens := Some(inputTokens);
      }
    }

    /** `_anchor_index`: also forgets a compaction whose boundary is gone. */
    method Locate(items: seq<Item>) returns (start: Option<nat>)
      modifies this
      ensures start == Start(old(compaction), items)
      ensures compaction == Located(old(compaction), items)
      ensures lastInputTokens == LocatedTokens(old(Abs()), items) && lastViewChars == old(lastViewChars)
    {
      if compaction.None? {
        return None;
      }
      for i := 0 to |items|
        invariant forall j :: 0 <= j < i ==> items[j] != compaction.value.anchor
      {
        if items[i] == compaction.value.anchor {
          return Some(i);
        }
      }
      compaction, lastInputTokens := None, None;
      return None;
    }

    method Render(items: seq<Item>, start: Option<nat>) returns (view: seq<Item>)
      requires start.Some? ==> start.value <= |items|
      ensures view == if start.None? || compaction.None? then items
              else Cut(items, start.value, compaction.value.summary)
    {
      if start.None? || compaction.None? {
        return items;
      }
      var head := CollectMessages(items[..start.value]);
      view := head + [SummaryItem(compaction.value.summary)] + items[start.value..];
    }

    /** `_compact`, without the view it renders; `moved` is the new boundary. */
    method Compact(items: seq<Item>, start: Option<nat>, reply: string) returns (moved: Option<nat>)
      requires start == Start(compaction, items) && (compaction.Some? ==> start.Some?)
      modifies this`compaction
      ensures moved == GainfulTail(settings, items, First(old(compaction), items))
      ensures compaction == Moved(settings, old(compaction), items, moved, reply)
    {
      var first := if start.None? then 0 else start.value;
      moved := TailStart(items, first, settings.tailChars, settings.chars);
      if moved.None? || Chars(items[first..moved.value], settings.chars) < settings.MinGainChars() {
        return None;
      }
      var previous := if compaction.Some? then compaction.value.summary else "";
      compaction := Some(Compaction(items[moved.value], settings.keep(previous, reply, moved.value - first)));
    }

    /** The view so far and whether the request it makes is too large. */
    method Prepare(items: seq<Item>, staticChars: nat, liveChars: nat)
        returns (start: Option<nat>, view: seq<Item>, over: bool)
      modifies this
      ensures start == Start(old(compaction), items) && (compaction.Some? ==> start.Some?)
      ensures view == Shown(settings, old(compaction), items, None, "")
      ensures over == Over(settings, old(Abs()), items, staticChars, liveChars)
      ensures compaction == Located(old(compaction), items)
      ensures lastInputTokens == LocatedTokens(old(Abs()), items)
    {
      start := Locate(items);
      view := Render(items, start);
      var viewChars := Chars(view, settings.chars) + liveChars;
      var estimate := EstimateTokens(lastViewChars, lastInputTokens, viewChars, staticChars);
      over := settings.thresholdTokens != 0 && estimate >= settings.thresholdTokens;
    }

    /** Compacts if the request is too large, and renders what is sent. */
    method Answer(items: seq<Item>, start: Option<nat>, soFar: seq<Item>, over: bool, reply: string,
                  ghost before: Option<Compaction>) returns (view: seq<Item>, moved: Option<nat>)
      requires start == Start(before, items) && compaction == Located(before, items)
               && (compaction.Some? ==> start.Some?)
      requires soFar == Shown(settings, before, items, None, "")
      modifies this`compaction
      ensures moved == if over then GainfulTail(settings, items, First(before, items)) else None
      ensures compaction == Moved(settings, before, items, moved, reply)
      ensures view == Shown(settings, before, items, moved, reply)
    {
      SameWithoutMove(settings, before, items, reply);
      view, moved := soFar, None;
      if over {
        moved := Compact(items, start, reply);
        if moved.Some? {
          view := Render(items, moved);
        }
      }
    }

    /** One request; `reply` is the summarizer's stripped answer, empty when it failed. */
    method View(items: seq<Item>, staticChars: nat, liveChars: nat, reply: string) returns (view: seq<Item>)
      modifies this
      ensures var tail := NewBoundary(settings, old(Abs()), items, staticChars, liveChars);
              view == Shown(settings, old(compaction), items, tail, reply)
      ensures Abs() == Next(settings, old(Abs()), Request(items, staticChars, liveChars, reply))
    {
      var start, soFar, over := Prepare(items, staticChars, liveChars);
      var moved;
      view, moved := Answer(items, start, soFar, over, reply, old(compaction));
      assert moved == NewBoundary(settings, old(Abs()), items, staticChars, liveChars);
      lastViewChars := Some(Chars(view, settings.chars) + liveChars);
      if over {
        lastInputTokens := None;
      }
    }
  }

  // -- whole runs on an append-only history ------------------------------------------

  datatype Event =
    | Request(items: seq<Item>, staticChars: nat, liveChars: nat, reply: string)
    | Usage(inputTokens: int)

  function Noted(st: State, inputTokens: int): State {
    if inputTokens > 0 && st.lastViewChars.Some? then st.(lastInputTokens := Some(inputTokens)) else st
  }

  ghost function Next(cfg: Settings, st: State, event: Event): State {
    match event
    case Usage(tokens) => Noted(st, tokens)
    case Request(items, staticChars, liveChars, reply) =>
      var tail := NewBoundary(cfg, st, items, staticChars, liveChars);
      State(Moved(cfg, st.compaction, items, tail, reply),
            Some(Chars(Shown(cfg, st.compaction, items, tail, reply), cfg.chars) + liveChars),
            if Over(cfg, st, items, staticChars, liveChars) then None else LocatedTokens(st, items))
  }

  /** What is known of sizes after a report and after a request: a positive report about a
      view there was is kept; a request notes the size of what it sends, and forgets the
      report when it was too large or its compaction lost its anchor. */
  lemma SizesKnown(cfg: Settings, st: State, tokens: int, request: Event)
    requires request.Request?
    ensures Next(cfg, st, Usage(tokens))
            == st.(lastInputTokens := if tokens > 0 && st.lastViewChars.Some? then Some(tokens) else st.lastInputTokens)
    ensures var (next, items) := (Next(cfg, st, request), request.items);
            var tail := NewBoundary(cfg, st, items, request.staticChars, request.liveChars);
            && next.lastViewChars
               == Some(Chars(Shown(cfg, st.compaction, items, tail, request.reply), cfg.chars) + request.liveChars)
            && next.lastInputTokens
               == (if Over(cfg, st, items, request.staticChars, request.liveChars)
                      || (st.compaction.Some? && st.compaction.value.anchor !in items)
                   then None else st.lastInputTokens)
  {
    var start := Start(st.compaction, request.items);
    assert st.compaction.Some? ==> (start.None? <==> st.compaction.value.anchor !in request.items);
  }

  /** One summary request: which items it was given, on top of which summary. */
  datatype Segment = Segment(lo: nat, hi: nat, previous: string, summary: string)

  /** The chain of summary requests behind the stored summary. */
  function Chained(cfg: Settings, c: Option<Compaction>, chain: seq<Segment>, items: seq<Item>, tail: Option<nat>,
                   reply: string): seq<Segment>
    requires Allowed(c, items, tail)
  {
    var kept := if Located(c, items).None? then [] else chain;
    if tail.None? then kept
    else kept + [Segment(First(c, items), tail.value, PreviousSummary(Located(c, items)),
                         Moved(cfg, c, items, tail, reply).value.summary)]
  }

  ghost function NextChain(cfg: Settings, st: State, chain: seq<Segment>, event: Event): seq<Segment> {
    match event
    case Usage(_) => chain
    case Request(items, staticChars, liveChars, reply) =>
      Chained(cfg, st.compaction, chain, items, NewBoundary(cfg, st, items, staticChars, liveChars), reply)
  }

  ghost function Run(cfg: Settings, events: seq<Event>): (State, seq<Segment>) {
    if events == [] then (FRESH, [])
    else
      var n := |events| - 1;
      var (st, chain) := Run(cfg, events[..n]);
      (Next(cfg, st, events[n]), NextChain(cfg, st, chain, events[n]))
  }

  /** The conversation as of the last request. */
  function History(events: seq<Event>): seq<Item> {
    if events == [] then []
    else
      var n := |events| - 1;
      if events[n].Request? then events[n].items else History(events[..n])
  }

  predicate AppendOnly(events: seq<Event>) {
    events == [] ||
    var n := |events| - 1;
    && AppendOnly(events[..n])
    && (events[n].Request? ==> History(events[..n]) <= events[n].items)
  }

  ghost predicate Covered(chain: seq<Segment>, i: nat) {
    exists k :: 0 <= k < |chain| && chain[k].lo <= i < chain[k].hi
  }

  /** The chain behind a summary: each request continued the one before it, the
      stored summary is the last one's, the anchor is the item it stopped at, and
      no item before that one was skipped. */
  ghost predicate ChainExplains(c: Option<Compaction>, chain: seq<Segment>, history: seq<Item>) {
    && (c.None? <==> chain == [])
    && (forall k :: 0 <= k < |chain| ==> chain[k].lo < chain[k].hi < |history|)
    && (forall k :: 0 < k < |chain| ==> chain[k].previous == chain[k - 1].summary)
    && (chain != [] ==>
          var last := chain[|chain| - 1];
          && chain[0].previous == ""
          && c == Some(Compaction(history[last.hi], last.summary))
          && forall i: nat :: i < last.hi ==> Covered(chain, i))
  }

  lemma {:induction false} AnchorIndexStable(items: seq<Item>, more: seq<Item>, anchor: Item)
    requires items <= more && anchor in items
    ensures AnchorIndex(more, anchor) == AnchorIndex(items, anchor)
  {
    if items[0] != anchor {
      AnchorIndexStable(items[1..], more[1..], anchor);
    }
  }

  lemma CoveredByMore(chain: seq<Segment>, segment: Segment, i: nat)
    requires Covered(chain, i) || segment.lo <= i < segment.hi
    ensures Covered(chain + [segment], i)
  {
    if Covered(chain, i) {
      var k :| 0 <= k < |chain| && chain[k].lo <= i < chain[k].hi;
      assert (chain + [segment])[k] == chain[k];
    } else {
      assert (chain + [segment])[|chain|] == segment;
    }
  }

  /** The boundary is found at or before the item the last summary stopped at. */
  lemma FoundAtOrBefore(c: Option<Compaction>, chain: seq<Segment>, history: seq<Item>, items: seq<Item>)
    requires ChainExplains(c, chain, history) && history <= items
    ensures Located(c, items) == c
    ensures chain == [] ==> First(c, items) == 0
    ensures chain != [] ==> Start(c, items).Some? && First(c, items) <= chain[|chain| - 1].hi
  {
    if chain != [] {
      var hi := chain[|chain| - 1].hi;
      assert items[hi] == c.value.anchor;
    }
  }

  lemma {:induction false} ChainStep(cfg: Settings, c: Option<Compaction>, chain: seq<Segment>, history: seq<Item>,
                                     items: seq<Item>, tail: Option<nat>, reply: string)
    requires ChainExplains(c, chain, history) && history <= items
    requires Allowed(c, items, tail)
    ensures ChainExplains(Moved(cfg, c, items, tail, reply), Chained(cfg, c, chain, items, tail, reply), items)
  {
    FoundAtOrBefore(c, chain, history, items);
    if tail.Some? {
      var segment := Segment(First(c, items), tail.value, PreviousSummary(c),
                             Moved(cfg, c, items, tail, reply).value.summary);
      assert Chained(cfg, c, chain, items, tail, reply) == chain + [segment];
      forall i: nat | i < tail.value ensures Covered(chain + [segment], i) {
        CoveredByMore(chain, segment, i);
      }
    }
  }

  lemma {:induction false} RunsKeepTheChain(cfg: Settings, events: seq<Event>)
    requires AppendOnly(events)
    ensures ChainExplains(Run(cfg, events).0.compaction, Run(cfg, events).1, History(events))
  {
    if events != [] {
      var n := |events| - 1;
      RunsKeepTheChain(cfg, events[..n]);
      var (st, chain) := Run(cfg, events[..n]);
      match events[n]
      case Usage(_) =>
      case Request(items, staticChars, liveChars, reply) =>
        ChainStep(cfg, st.compaction, chain, History(events[..n]), items,
                  NewBoundary(cfg, st, items, staticChars, liveChars), reply);
    }
  }

  /** So when the summarizer fails, what earlier summaries said stays in the new one. */
  lemma FailedReplyKeepsSummary(cfg: Settings, c: Compaction, items: seq<Item>, tail: nat)
    requires cfg.keep == KeptSummary && Located(Some(c), items).Some? && Allowed(Some(c), items, Some(tail))
    ensures KeptAsFarAsItGoes(c.summary, Moved(cfg, Some(c), items, Some(tail), "").value.summary)
  {
    MovedSummary(cfg, c, items, tail, "");
    SummaryKeeps(c.summary, "", tail - First(Some(c), items));
  }

  lemma MovedSummary(cfg: Settings, c: Compaction, items: seq<Item>, tail: nat, reply: string)
    requires Located(Some(c), items).Some? && Allowed(Some(c), items, Some(tail))
    ensures Moved(cfg, Some(c), items, Some(tail), reply)
            == Some(Compaction(items[tail], cfg.keep(c.summary, reply, tail - First(Some(c), items))))
  {
  }

  /** What a request shows: from some index on every item verbatim, and everything
      before that index behind the summary. */
  ghost predicate LosesNothing(view: seq<Item>, c: Option<Compaction>, chain: seq<Segment>, items: seq<Item>) {
    if c.None? then view == items
    else exists start: nat ::
      && start < |items|
      && view == Cut(items, start, c.value.summary)
      && forall i: nat :: i < start ==> Covered(chain, i)
  }

  lemma {:induction false} ShownLosesNothing(cfg: Settings, c: Option<Compaction>, chain: seq<Segment>,
                                             history: seq<Item>,
                                             items: seq<Item>, tail: Option<nat>, reply: string)
    requires ChainExplains(c, chain, history) && history <= items
    requires Allowed(c, items, tail)
    ensures LosesNothing(Shown(cfg, c, items, tail, reply), Moved(cfg, c, items, tail, reply),
                         Chained(cfg, c, chain, items, tail, reply), items)
  {
    ChainStep(cfg, c, chain, history, items, tail, reply);
    FoundAtOrBefore(c, chain, history, items);
    if tail.Some? || c.Some? {
      var start := if tail.Some? then tail.value else First(c, items);
      var after := Chained(cfg, c, chain, items, tail, reply);
      assert start <= after[|after| - 1].hi;
      assert forall i: nat :: i < start ==> Covered(after, i);
    }
  }

  /** Nothing is lost.  After any run on an append-only history, the next request
      shows every item verbatim from some index on, and every item before that
      index went into the chain of summaries that ends in the one shown; what the
      player said before it stands in front of the summary. */
  lemma {:induction false} NothingIsLost(cfg: Settings, events: seq<Event>, request: Event)
    requires AppendOnly(events) && request.Request? && History(events) <= request.items
    ensures var (st, chain) := Run(cfg, events);
            var tail := NewBoundary(cfg, st, request.items, request.staticChars, request.liveChars);
            var (st', chain') := (Next(cfg, st, request), NextChain(cfg, st, chain, request));
            && Run(cfg, events + [request]) == (st', chain')
            && ChainExplains(st'.compaction, chain', request.items)
            && LosesNothing(Shown(cfg, st.compaction, request.items, tail, request.reply), st'.compaction, chain',
                            request.items)
  {
    assert (events + [request])[..|events|] == events;
    RunsKeepTheChain(cfg, events);
    var (st, chain) := Run(cfg, events);
    var tail := NewBoundary(cfg, st, request.items, request.staticChars, request.liveChars);
    ChainStep(cfg, st.compaction, chain, History(events), request.items, tail, request.reply);
    ShownLosesNothing(cfg, st.compaction, chain, History(events), request.items, tail, request.reply);
  }

  // -- prefix stability ----------------------------------------------------------------

  /** Between compactions a view is the previous one plus the appended items,
      whatever sizes the provider reports in between. */
  lemma {:induction false} ViewsOnlyGrow(cfg: Settings, c: Option<Compaction>, items: seq<Item>, appended: seq<Item>,
                                         reply: string, reply': string)
    ensures Shown(cfg, Moved(cfg, c, items, None, reply), items + appended, None, reply')
            == Shown(cfg, c, items, None, reply) + appended
  {
    if Start(c, items).Some? {
      var start := Start(c, items).value;
      AnchorIndexStable(items, items + appended, c.value.anchor);
      assert (items + appended)[..start] == items[..start];
      assert (items + appended)[start..] == items[start..] + appended;
    }
  }

  /** Right after a compaction the next view continues the compacted one exactly
      when no earlier item equals the boundary item. */
  lemma {:induction false} ViewContinuesCompactionIff(cfg: Settings, c: Option<Compaction>, items: seq<Item>, tail: nat,
                                                      appended: seq<Item>, reply: string, reply': string)
    requires Allowed(c, items, Some(tail))
    ensures Shown(cfg, Moved(cfg, c, items, Some(tail), reply), items + appended, None, reply')
            == Shown(cfg, c, items, Some(tail), reply) + appended
            <==> forall i :: 0 <= i < tail ==> items[i] != items[tail]
  {
    var summary := Moved(cfg, c, items, Some(tail), reply).value.summary;
    AnchorIndexStable(items, items + appended, items[tail]);
    var start := AnchorIndex(items, items[tail]).value;
    assert (items + appended)[..tail] == items[..tail];
    assert (items + appended)[tail..] == items[tail..] + appended;
    assert Cut(items, tail, summary) + appended == Cut(items + appended, tail, summary);
    if start < tail {
      DifferentCutsDiffer(items + appended, start, tail, summary);
    }
  }

  /** Cutting at another place always shows something else. */
  lemma {:induction false} DifferentCutsDiffer(items: seq<Item>, start: nat, tail: nat, summary: string)
    requires start < tail <= |items|
    ensures Cut(items, start, summary) != Cut(items, tail, summary)
  {
    var a, b := Messages(items[..start]), Messages(items[..tail]);
    assert items[..tail][..start] == items[..start];
    MessagesGrowth(items[..tail], start);
    var left, right := Cut(items, start, summary), Cut(items, tail, summary);
    // Equal lengths need a message from every item between the cuts, the last one too.
    if |b| == |a| + tail - start {
      assert !IsSummary(items[tail - 1]);
      assert right[|b|] == SummaryItem(summary);
      assert left[|b|] == items[tail - 1];
    } else {
      assert |left| != |right|;
    }
  }

  // -- consecutive requests of a run ---------------------------------------------------------

  /** The items a request sends. */
  ghost function Sent(cfg: Settings, st: State, request: Event): seq<Item>
    requires request.Request?
  {
    Shown(cfg, st.compaction, request.items, BoundaryOf(cfg, st, request), request.reply)
  }

  /** The boundary a request moves to, if it compacts. */
  ghost function BoundaryOf(cfg: Settings, st: State, request: Event): (tail: Option<nat>)
    requires request.Request?
    ensures Allowed(st.compaction, request.items, tail)
  {
    NewBoundary(cfg, st, request.items, request.staticChars, request.liveChars)
  }

  lemma {:induction false} ReportsKeepCompaction(cfg: Settings, events: seq<Event>, reports: seq<Event>)
    requires forall e :: e in reports ==> e.Usage?
    ensures Run(cfg, events + reports).0.compaction == Run(cfg, events).0.compaction
  {
    if reports == [] {
      assert events + reports == events;
    } else {
      var n := |reports| - 1;
      ReportsKeepCompaction(cfg, events, reports[..n]);
      assert (events + reports)[..|events| + n] == events + reports[..n];
      assert reports[n] in reports;
    }
  }

  lemma CompactionAfter(cfg: Settings, events: seq<Event>, first: Event, reports: seq<Event>)
    requires first.Request? && forall e :: e in reports ==> e.Usage?
    ensures var before := Run(cfg, events).0;
            Run(cfg, events + [first] + reports).0.compaction
            == Moved(cfg, before.compaction, first.items, BoundaryOf(cfg, before, first), first.reply)
  {
    ReportsKeepCompaction(cfg, events + [first], reports);
    assert (events + [first])[..|events|] == events;
  }

  lemma ContinuesIff(cfg: Settings, before: State, first: Event, between: State, second: Event)
    requires first.Request? && second.Request? && first.items <= second.items && BoundaryOf(cfg, between, second).None?
    requires between.compaction
             == Moved(cfg, before.compaction, first.items, BoundaryOf(cfg, before, first), first.reply)
    ensures var tail := BoundaryOf(cfg, before, first);
            Sent(cfg, between, second) == Sent(cfg, before, first) + second.items[|first.items|..]
            <==> (tail.Some? ==> forall i :: 0 <= i < tail.value ==> first.items[i] != first.items[tail.value])
  {
    var (tail, added) := (BoundaryOf(cfg, before, first), second.items[|first.items|..]);
    assert second.items == first.items + added;
    if tail.None? {
      ViewsOnlyGrow(cfg, before.compaction, first.items, added, first.reply, second.reply);
    } else {
      ViewContinuesCompactionIff(cfg, before.compaction, first.items, tail.value, added, first.reply, second.reply);
    }
  }

  /** Two consecutive requests of any run, with any sizes reported in between.  When the
      second does not compact, it sends what the first sent and then the new items
      exactly when the first did not compact either, or moved to an item that equals
      none before it. */
  lemma NextRequestContinuesIff(cfg: Settings, events: seq<Event>, first: Event, reports: seq<Event>, second: Event)
    requires first.Request? && second.Request? && first.items <= second.items
    requires forall e :: e in reports ==> e.Usage?
    requires BoundaryOf(cfg, Run(cfg, events + [first] + reports).0, second).None?
    ensures var (before, between) := (Run(cfg, events).0, Run(cfg, events + [first] + reports).0);
            var tail := BoundaryOf(cfg, before, first);
            Sent(cfg, between, second) == Sent(cfg, before, first) + second.items[|first.items|..]
            <==> (tail.Some? ==> forall i :: 0 <= i < tail.value ==> first.items[i] != first.items[tail.value])
  {
    CompactionAfter(cfg, events, first, reports);
    ContinuesIff(cfg, Run(cfg, events).0, first, Run(cfg, events + [first] + reports).0, second);
  }

  // A player who says the same thing twice, under a small budget.
  const SAID := Item("user", "", None, None, Text("again"))
  const OTHER := Item("user", "", None, None, Text("and"))
  const SMALL := Settings(100, 1, (_: Item) => 1, KeptSummary)
  const TWICE := Request([SAID, OTHER, SAID], 0, 0, "")
  const LATER := Request([SAID, OTHER, SAID, OTHER], 0, 0, "")

  lemma {:induction false} OneCharEach(items: seq<Item>)
    ensures Chars(items, SMALL.chars) == |items|
  {
    if items != [] {
      OneCharEach(items[1..]);
    }
  }

  lemma TwiceMovesToTheRepeat()
    ensures BoundaryOf(SMALL, FRESH, TWICE) == Some(2)
  {
    BudgetIndexIsLongestTailThatFits(TWICE.items, 0, 1, SMALL.chars);
    OneCharEach(TWICE.items[1..]);
    OneCharEach(TWICE.items[0..2]);
    assert IsBoundary(TWICE.items, 0, 2, 2);
  }

  lemma LaterDoesNotCompact(st: State)
    requires st.compaction.Some? && st.compaction.value.anchor == SAID
    requires st.lastInputTokens == Some(1) && st.lastViewChars.Some?
    ensures BoundaryOf(SMALL, st, LATER).None?
  {
    OneCharEach(Shown(SMALL, st.compaction, LATER.items, None, ""));
  }

  lemma RunTwice()
    ensures Run(SMALL, [TWICE, Usage(1)]).0 == Noted(Next(SMALL, FRESH, TWICE), 1)
  {
    assert [TWICE, Usage(1)][..1] == [TWICE] && [TWICE][..0] == [];
    assert Run(SMALL, [TWICE]).0 == Next(SMALL, FRESH, TWICE);
  }

  lemma TwiceThenUsage()
    ensures var between := Noted(Next(SMALL, FRESH, TWICE), 1);
            && between.compaction == Moved(SMALL, None, TWICE.items, Some(2), TWICE.reply)
            && between.lastInputTokens == Some(1) && between.lastViewChars.Some?
  {
    TwiceMovesToTheRepeat();
  }

  /** An input on which a request does not continue the compacted one before it. */
  lemma RepeatedItemBreaksTheView()
    ensures var between := Run(SMALL, [TWICE, Usage(1)]).0;
            && BoundaryOf(SMALL, between, LATER).None?
            && Sent(SMALL, between, LATER) != Sent(SMALL, FRESH, TWICE) + LATER.items[|TWICE.items|..]
  {
    var between := Run(SMALL, [TWICE, Usage(1)]).0;
    RunTwice();
    TwiceThenUsage();
    LaterDoesNotCompact(between);
    TwiceMovesToTheRepeat();
    ContinuesIff(SMALL, FRESH, TWICE, between, LATER);
    assert TWICE.items[0] == TWICE.items[2];
  }
}

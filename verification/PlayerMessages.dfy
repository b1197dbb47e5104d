/** What the player said in a stretch of conversation (`_player_part`,
    `_player_messages`): user items without harness facts, earlier summaries or
    immediate repeats. */
module PlayerMessages {
  import opened Options
  import opened ConversationItems
  import opened Whitespace

  const SUMMARY_HEADER := "CONVERSATION_SUMMARY (historical, not a new request):"
  const HARNESS_FACT_PREFIX := "HARNESS_FACT: "

  function Lines(s: string): (r: seq<string>)
    ensures |r| > 0
  {
    if s == "" then [""]
    else
      var rest := Lines(s[1..]);
      if s[0] == '\n' then [""] + rest else [[s[0]] + rest[0]] + rest[1..]
  }

  function Unlines(lines: seq<string>): string {
    if lines == [] then "" else if |lines| == 1 then lines[0] else lines[0] + "\n" + Unlines(lines[1..])
  }

  function WithoutHarnessFacts(lines: seq<string>): seq<string> {
    if lines == [] then []
    else (if HARNESS_FACT_PREFIX <= lines[0] then [] else [lines[0]]) + WithoutHarnessFacts(lines[1..])
  }

  predicate Contains(s: string, part: string) {
    exists i :: 0 <= i <= |s| && part <= s[i..]
  }

  predicate IsBlank(s: string) {
    forall c :: c in s ==> IsSpace(c)
  }

  predicate IsSummary(item: Item) {
    IsUser(item) && item.content.Text? && SUMMARY_HEADER <= item.content.text
  }

  function PlayerPart(item: Item): Option<Item> {
    if !item.content.Text? || !Contains(item.content.text, HARNESS_FACT_PREFIX) then Some(item)
    else
      var spoken := Unlines(WithoutHarnessFacts(Lines(item.content.text)));
      if IsBlank(spoken) then None else Some(item.(content := Text(spoken)))
  }

  /** What one item contributes on its own: nothing, or what the player said in it. */
  function Utterance(item: Item): Option<Item> {
    if !IsUser(item) || IsSummary(item) then None else PlayerPart(item)
  }

  function Messages(items: seq<Item>): (kept: seq<Item>)
    ensures |kept| <= |items|
  {
    if items == [] then []
    else
      var n := |items| - 1;
      Extend(Messages(items[..n]), items[n])
  }

  function Extend(kept: seq<Item>, item: Item): seq<Item> {
    match Utterance(item)
    case None => kept
    case Some(said) =>
      if kept != [] && kept[|kept| - 1].content == said.content then kept else kept + [said]
  }

  method CollectMessages(items: seq<Item>) returns (kept: seq<Item>)
    ensures kept == Messages(items)
  {
    kept := [];
    for i := 0 to |items|
      invariant kept == Messages(items[..i])
    {
      assert items[..i + 1][..i] == items[..i];
      var item := items[i];
      if !IsUser(item) || IsSummary(item) {
        continue;
      }
      var said := PlayerPart(item);
      if said.None? {
        continue;
      }
      if kept != [] && kept[|kept| - 1].content == said.value.content {
        continue;
      }
      kept := kept + [said.value];
    }
    assert items[..|items|] == items;
  }

  // -- what an utterance is, on the lines of the text ----------------------------------------------------

  predicate OneLine(line: string) {
    '\n' !in line
  }

  /** Lines joined by newlines. */
  function Joined(lines: seq<string>): string
    requires lines != []
  {
    var n := |lines| - 1;
    if n == 0 then lines[0] else Joined(lines[..n]) + "\n" + lines[n]
  }

  lemma {:induction false} JoinedFromFront(lines: seq<string>)
    requires |lines| > 1
    ensures Joined(lines) == lines[0] + "\n" + Joined(lines[1..])
  {
    var n := |lines| - 1;
    if n > 1 {
      JoinedFromFront(lines[..n]);
      assert lines[..n][1..] == lines[1..][..n - 1];
    } else {
      assert lines[..1] == [lines[0]] && lines[1..] == [lines[1]];
    }
  }

  lemma {:induction false} UnlinesIsJoined(lines: seq<string>)
    requires lines != []
    ensures Unlines(lines) == Joined(lines)
  {
    if |lines| > 1 {
      JoinedFromFront(lines);
      UnlinesIsJoined(lines[1..]);
    }
  }

  lemma {:induction false} LinesOfOne(line: string)
    requires OneLine(line)
    ensures Lines(line) == [line]
  {
    if line != "" {
      assert line[0] in line && forall c :: c in line[1..] ==> c in line;
      LinesOfOne(line[1..]);
      assert [line[0]] + line[1..] == line;
    }
  }

  lemma {:induction false} LinesOfMore(line: string, rest: string)
    requires OneLine(line)
    ensures Lines(line + "\n" + rest) == [line] + Lines(rest)
  {
    var text := line + "\n" + rest;
    if line != "" {
      assert line[0] in line && forall c :: c in line[1..] ==> c in line;
      LinesOfMore(line[1..], rest);
      assert text[0] == line[0] && text[1..] == line[1..] + "\n" + rest;
      assert ([line[1..]] + Lines(rest))[1..] == Lines(rest);
      assert [line[0]] + line[1..] == line;
    } else {
      assert text[1..] == rest;
    }
  }

  lemma {:induction false} LinesOfJoined(lines: seq<string>)
    requires lines != [] && forall line :: line in lines ==> OneLine(line)
    ensures Lines(Joined(lines)) == lines
  {
    if |lines| == 1 {
      LinesOfOne(lines[0]);
    } else {
      JoinedFromFront(lines);
      LinesOfMore(lines[0], Joined(lines[1..]));
      LinesOfJoined(lines[1..]);
    }
  }

  /** Every text is some lines joined by newlines. */
  lemma {:induction false} EveryTextIsLines(text: string) returns (lines: seq<string>)
    ensures lines != [] && (forall line :: line in lines ==> OneLine(line)) && Joined(lines) == text
  {
    if text == "" {
      lines := [""];
      return;
    }
    var n := |text| - 1;
    var front := EveryTextIsLines(text[..n]);
    var last := |front| - 1;
    assert text == text[..n] + [text[n]];
    if text[n] == '\n' {
      lines := front + [""];
      assert lines[..|front|] == front;
      assert Joined(lines) == Joined(front) + "\n" + "";
    } else {
      lines := front[..last] + [front[last] + [text[n]]];
      assert lines[..last] == front[..last];
      assert OneLine(front[last]);
      assert forall line :: line in lines ==> line in front || line == lines[last];
      assert last > 0 ==> Joined(front) == Joined(front[..last]) + "\n" + front[last];
    }
  }

  /** The items at these places, which go up. */
  predicate PickedAt<T(==)>(all: seq<T>, picked: seq<T>, at: seq<nat>) {
    && |at| == |picked| && (forall k :: 0 <= k < |at| ==> at[k] < |all| && picked[k] == all[at[k]])
    && (forall j, k :: 0 <= j < k < |at| ==> at[j] < at[k])
  }

  predicate AllThatSpeak(lines: seq<string>, at: seq<nat>) {
    forall i: nat :: i < |lines| ==> (i in at <==> !(HARNESS_FACT_PREFIX <= lines[i]))
  }

  /** `spoken` are the lines that are no harness facts, in order: those at the places `at`. */
  predicate AreSpoken(lines: seq<string>, spoken: seq<string>, at: seq<nat>) {
    PickedAt(lines, spoken, at) && AllThatSpeak(lines, at)
  }

  /** The places one further on. */
  function Later(at: seq<nat>): (r: seq<nat>)
    ensures |r| == |at| && forall k :: 0 <= k < |r| ==> r[k] == at[k] + 1
  {
    seq(|at|, k requires 0 <= k < |at| => at[k] + 1)
  }

  lemma LaterAt(at: seq<nat>, i: nat)
    ensures i in at <==> i + 1 in Later(at)
  {
    if i in at {
      var k :| 0 <= k < |at| && at[k] == i;
      assert Later(at)[k] == i + 1;
    }
  }

  lemma SpokenAfterFact(line: string, lines: seq<string>, spoken: seq<string>, at: seq<nat>)
    requires AreSpoken(lines, spoken, at) && HARNESS_FACT_PREFIX <= line
    ensures AreSpoken([line] + lines, spoken, Later(at))
  {
    var all := [line] + lines;
    forall i: nat | i < |all| ensures i in Later(at) <==> !(HARNESS_FACT_PREFIX <= all[i]) {
      if i > 0 {
        LaterAt(at, i - 1);
      }
    }
  }

  lemma PickedAfter<T>(first: T, rest: seq<T>, picked: seq<T>, at: seq<nat>)
    requires PickedAt(rest, picked, at)
    ensures PickedAt([first] + rest, [first] + picked, [0] + Later(at))
  {
  }

  lemma SpokenAfterWords(line: string, lines: seq<string>, spoken: seq<string>, at: seq<nat>)
    requires AreSpoken(lines, spoken, at) && !(HARNESS_FACT_PREFIX <= line)
    ensures AreSpoken([line] + lines, [line] + spoken, [0] + Later(at))
  {
    var (all, places) := ([line] + lines, [0] + Later(at));
    PickedAfter(line, lines, spoken, at);
    forall i: nat | i < |all| ensures i in places <==> !(HARNESS_FACT_PREFIX <= all[i]) {
      if i > 0 {
        assert i in places <==> i in Later(at);
        LaterAt(at, i - 1);
      } else {
        assert places[0] == 0;
      }
    }
  }

  lemma {:induction false} SpokenLines(lines: seq<string>) returns (at: seq<nat>)
    ensures AreSpoken(lines, WithoutHarnessFacts(lines), at)
  {
    at := [];
    if lines != [] {
      var (line, rest) := (lines[0], lines[1..]);
      var later := SpokenLines(rest);
      assert [line] + rest == lines;
      if HARNESS_FACT_PREFIX <= line {
        SpokenAfterFact(line, rest, WithoutHarnessFacts(rest), later);
        at := Later(later);
      } else {
        SpokenAfterWords(line, rest, WithoutHarnessFacts(rest), later);
        at := [0] + Later(later);
      }
    }
  }

  predicate AllBlank(lines: seq<string>) {
    forall line, c :: line in lines && c in line ==> IsSpace(c)
  }

  lemma {:induction false} BlankIff(lines: seq<string>)
    requires lines != []
    ensures IsBlank(Joined(lines)) <==> AllBlank(lines)
  {
    var n := |lines| - 1;
    if n > 0 {
      BlankIff(lines[..n]);
      assert forall line :: line in lines <==> line in lines[..n] || line == lines[n];
      assert forall c :: c in Joined(lines) <==> c in Joined(lines[..n]) || c == '\n' || c in lines[n];
    }
  }

  /** What a user item contributes.  A text without a harness fact, and a content that is
      no text, stand as they are.  Of a text with one exactly the lines that do not start
      with a fact are kept, in order; nothing, when those are all blank. */
  lemma PlayersWords(item: Item, lines: seq<string>) returns (spoken: seq<string>, at: seq<nat>)
    requires IsUser(item) && !IsSummary(item)
    requires lines != [] && forall line :: line in lines ==> OneLine(line)
    requires item.content == Text(Joined(lines))
    ensures AreSpoken(lines, spoken, at)
    ensures Utterance(item)
            == if !Occurs(HARNESS_FACT_PREFIX, Joined(lines)) then Some(item)
               else if AllBlank(spoken) then None
               else Some(item.(content := Text(Joined(spoken))))
  {
    LinesOfJoined(lines);
    spoken := WithoutHarnessFacts(lines);
    at := SpokenLines(lines);
    OccursIff(HARNESS_FACT_PREFIX, Joined(lines));
    if spoken != [] {
      UnlinesIsJoined(spoken);
      BlankIff(spoken);
    }
  }

  /** The part stands somewhere in the text. */
  predicate Occurs(part: string, text: string) {
    exists i, j :: 0 <= i <= j <= |text| && text[i..j] == part
  }

  lemma OccursIff(part: string, text: string)
    ensures Occurs(part, text) <==> Contains(text, part)
  {
    if Occurs(part, text) {
      var i, j :| 0 <= i <= j <= |text| && text[i..j] == part;
      assert text[i..][..|part|] == part;
    }
    if Contains(text, part) {
      var i :| 0 <= i <= |text| && part <= text[i..];
      assert text[i..i + |part|] == part;
    }
  }

  lemma OthersSayNothing(item: Item)
    ensures item.role != "user" || (item.content.Text? && SUMMARY_HEADER <= item.content.text) ==> Utterance(item).None?
    ensures item.role == "user" && !item.content.Text? ==> Utterance(item) == Some(item)
  {
  }

  /** So what the player said beside a harness fact reaches the model, and the fact does
      not: one of the messages of any items consists of exactly the spoken lines. */
  lemma WordsReachTheMessages(items: seq<Item>, i: nat, lines: seq<string>)
      returns (spoken: seq<string>, at: seq<nat>, k: nat)
    requires i < |items| && IsUser(items[i]) && !IsSummary(items[i])
    requires lines != [] && forall line :: line in lines ==> OneLine(line)
    requires items[i].content == Text(Joined(lines)) && Occurs(HARNESS_FACT_PREFIX, Joined(lines))
    ensures AreSpoken(lines, spoken, at)
    ensures !AllBlank(spoken) ==> k < |Messages(items)| && Messages(items)[k].content == Text(Joined(spoken))
  {
    spoken, at := PlayersWords(items[i], lines);
    var places := EveryUtteranceSurvivesInOrder(items);
    assert !AllBlank(spoken) ==> SaidAt(items[i], Messages(items), places[i]);
    k := places[i];
  }

  // -- the messages of a stretch ---------------------------------------------------------------------------

  /** Message `k` says what `item` said. */
  predicate SaidAt(item: Item, kept: seq<Item>, k: nat) {
    Utterance(item).Some? && k < |kept| && kept[k].content == Utterance(item).value.content
  }

  /** `at[i]` is where the words of item `i` stand among the kept messages. */
  ghost predicate Places(items: seq<Item>, kept: seq<Item>, at: seq<nat>) {
    && |at| == |items|
    && (forall i :: 0 <= i < |items| && Utterance(items[i]).Some? ==> SaidAt(items[i], kept, at[i]))
    && (forall i, j :: 0 <= i < j < |items| ==> at[i] <= at[j])
  }

  /** Message `k` is the first utterance put at its place. */
  ghost predicate Comes(items: seq<Item>, kept: seq<Item>, at: seq<nat>, k: nat, i: nat) {
    i < |items| && i < |at| && k < |kept| && at[i] == k && Utterance(items[i]) == Some(kept[k])
  }

  ghost predicate HasSource(items: seq<Item>, kept: seq<Item>, at: seq<nat>, k: nat) {
    exists i: nat :: Comes(items, kept, at, k, i)
  }

  ghost predicate NothingElse(items: seq<Item>, kept: seq<Item>, at: seq<nat>) {
    forall k: nat :: k < |kept| ==> HasSource(items, kept, at, k)
  }

  /** One more item: the words before it stay where they are, its own come last. */
  lemma PlacesExtend(items: seq<Item>, at0: seq<nat>)
    requires items != [] && Places(items[..|items| - 1], Messages(items[..|items| - 1]), at0)
    requires forall i :: 0 <= i < |at0| ==> at0[i] == 0 || at0[i] < |Messages(items[..|items| - 1])|
    ensures Places(items, Messages(items), at0 + [if Messages(items) == [] then 0 else |Messages(items)| - 1])
  {
    var n := |items| - 1;
    var before, kept := Messages(items[..n]), Messages(items);
    var at := at0 + [if kept == [] then 0 else |kept| - 1];
    assert kept == Extend(before, items[n]);
    forall i | 0 <= i < |items| && Utterance(items[i]).Some? ensures SaidAt(items[i], kept, at[i]) {
      if i < n {
        assert SaidAt(items[..n][i], before, at0[i]);
      }
    }
  }

  lemma SourcesExtend(items: seq<Item>, at0: seq<nat>, k: nat)
    requires items != [] && |at0| == |items| - 1 && k < |Messages(items)|
    requires NothingElse(items[..|items| - 1], Messages(items[..|items| - 1]), at0)
    ensures HasSource(items, Messages(items), at0 + [if Messages(items) == [] then 0 else |Messages(items)| - 1], k)
  {
    var n := |items| - 1;
    var before, kept := Messages(items[..n]), Messages(items);
    var at := at0 + [if kept == [] then 0 else |kept| - 1];
    assert kept == Extend(before, items[n]);
    if k < |before| {
      assert HasSource(items[..n], before, at0, k);
      var i: nat :| Comes(items[..n], before, at0, k, i);
      assert Comes(items, kept, at, k, i);
    } else {
      assert Comes(items, kept, at, k, n);
    }
  }

  /** Every utterance survives, in order; nothing else is kept; and only an
      immediate repeat shares a place with the words before it. */
  lemma {:induction false} EveryUtteranceSurvivesInOrder(items: seq<Item>) returns (at: seq<nat>)
    ensures Places(items, Messages(items), at)
    ensures NothingElse(items, Messages(items), at)
    ensures forall k :: 0 < k < |Messages(items)| ==> Messages(items)[k - 1].content != Messages(items)[k].content
    ensures forall i :: 0 <= i < |at| ==> at[i] == 0 || at[i] < |Messages(items)|
  {
    if items == [] {
      at := [];
    } else {
      var at0 := EveryUtteranceSurvivesInOrder(items[..|items| - 1]);
      at := at0 + [if Messages(items) == [] then 0 else |Messages(items)| - 1];
      PlacesExtend(items, at0);
      forall k: nat | k < |Messages(items)| ensures HasSource(items, Messages(items), at, k) {
        SourcesExtend(items, at0, k);
      }
    }
  }

  /** Each item adds at most one message, and a summary adds none. */
  lemma {:induction false} MessagesGrowth(items: seq<Item>, i: nat)
    requires i <= |items|
    ensures Messages(items[..i]) <= Messages(items)
    ensures |Messages(items)| <= |Messages(items[..i])| + |items| - i
    ensures i < |items| && IsSummary(items[|items| - 1]) ==>
              |Messages(items)| < |Messages(items[..i])| + |items| - i
  {
    if i == |items| {
      assert items[..i] == items;
    } else {
      MessagesGrowth(items[..|items| - 1], i);
      assert items[..|items| - 1][..i] == items[..i];
    }
  }
}

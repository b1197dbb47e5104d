/** Messages sent to Anthropic: merging neighbours of one role (`_merge_messages`)
    and placing the cache breakpoint in front of the volatile tail
    (`_mark_history_breakpoint`). */
module AnthropicMessages {
  import opened Options

  const CURRENT_CONTEXT_HEADER := "CURRENT_CONTEXT:"

  // `payload` stands for the fields that are neither type, text nor cache mark: for a
  // picture part the source its URL gives, empty when the URL gives none.
  datatype Block = Block(kind: string, text: string, payload: string, cache: Option<string>)

  datatype Content = Plain(text: string) | Blocks(blocks: seq<Block>)

  datatype Message = Message(role: string, content: Content)

  // -- merging ---------------------------------------------------------------------------

  /** `_content_blocks` on one part: text and documents pass, a picture with a usable
      URL becomes an image block, everything else is left out. */
  function ConvertedPart(part: Block): (r: seq<Block>)
    ensures |r| <= 1 && (r == [part] <==> PartKept(part))
  {
    if part.kind in ["text", "input_text", "output_text"] then [Block("text", part.text, "", None)]
    else if part.kind in ["image_url", "input_image"] && part.payload != ""
      then [Block("image", "", part.payload, None)]
    else if part.kind == "document" then [part]
    else []
  }

  lemma ConvertedPartIs(part: Block)
    ensures part.kind in ["text", "input_text", "output_text"] ==>
              ConvertedPart(part) == [Block("text", part.text, "", None)]
    ensures part.kind in ["image_url", "input_image"] ==>
              ConvertedPart(part) == if part.payload == "" then [] else [Block("image", "", part.payload, None)]
    ensures part.kind == "document" ==> ConvertedPart(part) == [part]
    ensures part.kind !in ["text", "input_text", "output_text", "image_url", "input_image", "document"] ==>
              ConvertedPart(part) == []
  {
  }

  function Converted(blocks: seq<Block>): seq<Block> {
    if blocks == [] then [] else ConvertedPart(blocks[0]) + Converted(blocks[1..])
  }

  function ContentBlocks(content: Content): seq<Block> {
    if content.Plain? then [Block("text", content.text, "", None)] else Converted(content.blocks)
  }

  function Joined(previous: Content, current: Content): Content {
    if previous.Blocks? && current.Blocks? then Blocks(previous.blocks + current.blocks)
    else Blocks(ContentBlocks(previous) + ContentBlocks(current))
  }

  function Absorb(merged: seq<Message>, message: Message): (r: seq<Message>) {
    var n := |merged|;
    if n > 0 && merged[n - 1].role == message.role
    then merged[n - 1 := Message(message.role, Joined(merged[n - 1].content, message.content))]
    else merged + [message]
  }

  function Merged(messages: seq<Message>): (r: seq<Message>)
    ensures |r| <= |messages| && (messages != [] ==> r != [])
  {
    if messages == [] then [] else Absorb(Merged(messages[..|messages| - 1]), messages[|messages| - 1])
  }

  method MergeMessages(messages: seq<Message>) returns (merged: seq<Message>)
    ensures merged == Merged(messages)
  {
    merged := [];
    for i := 0 to |messages|
      invariant merged == Merged(messages[..i])
    {
      assert messages[..i + 1][..i] == messages[..i];
      merged := MergeInto(merged, messages[i]);
    }
    assert messages[..|messages|] == messages;
  }

  method MergeInto(merged: seq<Message>, message: Message) returns (r: seq<Message>)
    ensures r == Absorb(merged, message)
  {
    var n := |merged|;
    if n == 0 || merged[n - 1].role != message.role {
      return merged + [message];
    }
    var previous, current := merged[n - 1].content, message.content;
    var content: Content;
    if previous.Blocks? && current.Blocks? {
      content := Blocks(previous.blocks + current.blocks);
    } else {
      content := Blocks(ContentBlocks(previous) + ContentBlocks(current));
    }
    r := merged[n - 1 := Message(message.role, content)];
  }

  // -- what merging promises ---------------------------------------------------------------

  /** The blocks a content holds; plain text is one text block. */
  function Held(content: Content): seq<Block> {
    if content.Plain? then [Block("text", content.text, "", None)] else content.blocks
  }

  function Tagged(role: string, blocks: seq<Block>): (r: seq<(string, Block)>)
    ensures |r| == |blocks| && forall i :: 0 <= i < |r| ==> r[i] == (role, blocks[i])
  {
    seq(|blocks|, i requires 0 <= i < |blocks| => (role, blocks[i]))
  }

  /** The flattened request: every block with its role, in order. */
  function Flat(messages: seq<Message>): seq<(string, Block)> {
    if messages == [] then []
    else
      var last := messages[|messages| - 1];
      Flat(messages[..|messages| - 1]) + Tagged(last.role, Held(last.content))
  }

  predicate Alternates(messages: seq<Message>) {
    forall i :: 0 < i < |messages| ==> messages[i - 1].role != messages[i].role
  }

  predicate AllBlocks(messages: seq<Message>) {
    forall m :: m in messages ==> m.content.Blocks?
  }

  lemma {:induction false} MergedAlternates(messages: seq<Message>)
    ensures Alternates(Merged(messages))
  {
    if messages != [] {
      MergedAlternates(messages[..|messages| - 1]);
    }
  }

  /** Whether a content survives the conversion a mixed merge applies. */
  predicate Convertible(content: Content) {
    content.Plain? || forall b :: b in content.blocks ==> PartKept(b)
  }

  predicate PartKept(part: Block) {
    part.kind == "document" || (part.kind == "text" && part.payload == "" && part.cache.None?)
  }

  /** One merge keeps every block exactly when both sides are block lists or both
      survive conversion: a plain text beside a tool result drops the result. */
  lemma JoinedKeepsBlocksIff(previous: Content, current: Content)
    ensures Held(Joined(previous, current)) == Held(previous) + Held(current)
            <==> (previous.Blocks? && current.Blocks?) || (Convertible(previous) && Convertible(current))
  {
    if !(previous.Blocks? && current.Blocks?) {
      ContentBlocksKeptIff(previous);
      ContentBlocksKeptIff(current);
      var a, b := ContentBlocks(previous), ContentBlocks(current);
      assert |a| <= |Held(previous)| && |b| <= |Held(current)|;
      if a + b == Held(previous) + Held(current) {
        assert a == (a + b)[..|a|] && Held(previous) == (a + b)[..|a|];
        assert b == (a + b)[|a|..] && Held(current) == (a + b)[|a|..];
      }
    }
  }

  lemma ContentBlocksKeptIff(content: Content)
    ensures |ContentBlocks(content)| <= |Held(content)|
    ensures ContentBlocks(content) == Held(content) <==> Convertible(content)
  {
    if content.Blocks? {
      ConvertedKeptIff(content.blocks);
    }
  }

  lemma {:induction false} ConvertedKeptIff(blocks: seq<Block>)
    ensures |Converted(blocks)| <= |blocks|
    ensures Converted(blocks) == blocks <==> Convertible(Blocks(blocks))
  {
    if blocks != [] {
      var (part, rest) := (ConvertedPart(blocks[0]), Converted(blocks[1..]));
      ConvertedKeptIff(blocks[1..]);
      KeptTogether(part, rest, blocks);
      assert forall c :: c in blocks <==> c == blocks[0] || c in blocks[1..];
    }
  }

  lemma KeptTogether(part: seq<Block>, rest: seq<Block>, blocks: seq<Block>)
    requires blocks != [] && |part| <= 1 && |rest| <= |blocks[1..]|
    ensures part + rest == blocks <==> part == [blocks[0]] && rest == blocks[1..]
  {
    if part + rest == blocks {
      assert |part| == 1 && (part + rest)[0] == part[0];
      assert rest == (part + rest)[1..];
    }
  }

  lemma FlatSnoc(messages: seq<Message>, message: Message)
    ensures Flat(messages + [message]) == Flat(messages) + Tagged(message.role, Held(message.content))
  {
    assert (messages + [message])[..|messages|] == messages;
  }

  lemma TaggedConcat(role: string, a: seq<Block>, b: seq<Block>)
    ensures Tagged(role, a + b) == Tagged(role, a) + Tagged(role, b)
  {
  }

  /** Absorbing a message makes a last message that ends with its blocks. */
  lemma AbsorbLast(merged: seq<Message>, message: Message) returns (front: seq<Message>, own: seq<Block>)
    requires AllBlocks(merged) && message.content.Blocks?
    ensures Absorb(merged, message) == front + [Message(message.role, Blocks(own + message.content.blocks))]
    ensures AllBlocks(front) && Flat(merged) == Flat(front) + Tagged(message.role, own)
  {
    var k := |merged| - 1;
    if k >= 0 && merged[k].role == message.role {
      assert merged[k] in merged;
      front, own := merged[..k], merged[k].content.blocks;
    } else {
      front, own := merged, [];
      assert [] + message.content.blocks == message.content.blocks;
      assert message == Message(message.role, Blocks(message.content.blocks));
    }
  }

  lemma FlatLast(front: seq<Message>, role: string, own: seq<Block>, b: seq<Block>)
    requires AllBlocks(front)
    ensures AllBlocks(front + [Message(role, Blocks(own + b))])
    ensures Flat(front + [Message(role, Blocks(own + b))]) == (Flat(front) + Tagged(role, own)) + Tagged(role, b)
  {
    FlatSnoc(front, Message(role, Blocks(own + b)));
    TaggedConcat(role, own, b);
  }

  lemma FlatAbsorb(merged: seq<Message>, message: Message)
    requires AllBlocks(merged) && message.content.Blocks?
    ensures AllBlocks(Absorb(merged, message))
    ensures Flat(Absorb(merged, message)) == Flat(merged) + Tagged(message.role, message.content.blocks)
  {
    var front, own := AbsorbLast(merged, message);
    FlatLast(front, message.role, own, message.content.blocks);
  }

  /** Merging a request whose messages all carry block lists, as the converter makes
      them, keeps the flattened (role, block) sequence. */
  lemma {:induction false} MergedKeepsBlocks(messages: seq<Message>)
    requires AllBlocks(messages)
    ensures AllBlocks(Merged(messages)) && Flat(Merged(messages)) == Flat(messages)
  {
    if messages != [] {
      var n := |messages| - 1;
      MergedKeepsBlocks(messages[..n]);
      assert messages[n] in messages;
      FlatAbsorb(Merged(messages[..n]), messages[n]);
    }
  }

  // -- the cache breakpoint ------------------------------------------------------------------

  predicate IsVolatile(block: Block) {
    block.kind == "text" && CURRENT_CONTEXT_HEADER <= block.text
  }

  predicate Cacheable(block: Block) {
    if block.kind == "text" then block.text != "" else block.kind in ["image", "document", "tool_use", "tool_result"]
  }

  /** How many blocks are left when the volatile ones at the end are dropped. */
  function StableLength(blocks: seq<Block>): (n: nat)
    ensures n <= |blocks|
    ensures forall i :: n <= i < |blocks| ==> IsVolatile(blocks[i])
    ensures n > 0 ==> !IsVolatile(blocks[n - 1])
  {
    if blocks != [] && IsVolatile(blocks[|blocks| - 1]) then StableLength(blocks[..|blocks| - 1]) else |blocks|
  }

  /** The blocks of message `m` a breakpoint may be looked for in. */
  function End(messages: seq<Message>, m: nat): (n: nat)
    requires m < |messages|
    ensures messages[m].content.Blocks? ==> n <= |messages[m].content.blocks|
  {
    if messages[m].content.Plain? then 0
    else if m == |messages| - 1 then StableLength(messages[m].content.blocks)
    else |messages[m].content.blocks|
  }

  predicate Candidate(messages: seq<Message>, m: nat, b: nat) {
    m < |messages| && b < End(messages, m) && Cacheable(messages[m].content.blocks[b])
  }

  /** Where the mark may go: on a text that is not empty, a picture, a document, a tool call
      or its result; in the last message only in front of its last block that is no text
      of the current context, or on that block. */
  lemma CandidateIff(messages: seq<Message>, m: nat, b: nat)
    requires m < |messages| && messages[m].content.Blocks? && b < |messages[m].content.blocks|
    ensures var (blocks, block) := (messages[m].content.blocks, messages[m].content.blocks[b]);
            Candidate(messages, m, b)
            <==> && ((block.kind == "text" && block.text != "")
                     || block.kind in ["image", "document", "tool_use", "tool_result"])
                 && (m == |messages| - 1 ==>
                       exists i :: b <= i < |blocks|
                                   && !(blocks[i].kind == "text" && "CURRENT_CONTEXT:" <= blocks[i].text))
  {
    var blocks := messages[m].content.blocks;
    var n := StableLength(blocks);
    if b < n {
      assert !IsVolatile(blocks[n - 1]);
    }
  }

  /** The last cacheable block in front of the volatile tail. */
  ghost predicate IsBreakpoint(messages: seq<Message>, m: nat, b: nat) {
    && Candidate(messages, m, b)
    && forall m': nat, b': nat :: Candidate(messages, m', b') ==> m' < m || (m' == m && b' <= b)
  }

  function MarkAt(messages: seq<Message>, m: nat, b: nat, ttl: string): seq<Message>
    requires Candidate(messages, m, b)
  {
    var blocks := messages[m].content.blocks;
    messages[m := messages[m].(content := Blocks(blocks[b := blocks[b].(cache := Some(ttl))]))]
  }

  method MarkHistoryBreakpoint(messages: array<Message>, ttl: string) returns (mark: Option<(nat, nat)>)
    modifies messages
    ensures mark.Some? ==>
              && IsBreakpoint(old(messages[..]), mark.value.0, mark.value.1)
              && messages[..] == MarkAt(old(messages[..]), mark.value.0, mark.value.1, ttl)
    ensures mark.None? ==> messages[..] == old(messages[..]) && forall m: nat, b: nat :: !Candidate(messages[..], m, b)
  {
    ghost var before := messages[..];
    var m: nat := messages.Length;
    while m > 0
      invariant m <= messages.Length && messages[..] == before
      invariant forall m': nat, b': nat :: Candidate(before, m', b') ==> m' < m
    {
      var index := m - 1;
      var content := messages[index].content;
      if content.Blocks? {
        var end: nat := |content.blocks|;
        if index == messages.Length - 1 {
          end := TrimVolatile(content.blocks);
        }
        assert end == End(before, index);
        var b: nat := end;
        while b > 0
          invariant b <= end
          invariant forall b': nat :: b <= b' < end ==> !Cacheable(content.blocks[b'])
        {
          if Cacheable(content.blocks[b - 1]) {
            assert IsBreakpoint(before, index, b - 1);
            messages[index] := Message(messages[index].role,
                                       Blocks(content.blocks[b - 1 := content.blocks[b - 1].(cache := Some(ttl))]));
            return Some((index, b - 1));
          }
          b := b - 1;
        }
      }
      m := index;
    }
    return None;
  }

  method TrimVolatile(blocks: seq<Block>) returns (end: nat)
    ensures end == StableLength(blocks)
  {
    end := |blocks|;
    while end > 0 && IsVolatile(blocks[end - 1])
      invariant end <= |blocks|
      invariant StableLength(blocks[..end]) == StableLength(blocks)
    {
      assert blocks[..end][..end - 1] == blocks[..end - 1];
      end := end - 1;
    }
  }

  // -- caching across requests -----------------------------------------------------------------

  /** Where block `b` of message `m` stands in the flattened request. */
  function Offset(messages: seq<Message>, m: nat, b: nat): nat
    requires m < |messages|
  {
    |Flat(messages[..m])| + b
  }

  predicate IsContext(message: Message) {
    message.content.Blocks? && forall b :: b in message.content.blocks ==> IsVolatile(b)
  }

  lemma {:induction false} FlatPrefix(a: seq<Message>, b: seq<Message>)
    requires a <= b
    ensures Flat(a) <= Flat(b)
  {
    if a != b {
      assert a <= b[..|b| - 1];
      FlatPrefix(a, b[..|b| - 1]);
    } else {
      assert a == b;
    }
  }

  lemma {:induction false} OffsetInside(messages: seq<Message>, m: nat, b: nat)
    requires m < |messages| && messages[m].content.Blocks? && b < |messages[m].content.blocks|
    ensures Offset(messages, m, b) < |Flat(messages)|
  {
    var n := |messages| - 1;
    if m < n {
      OffsetInside(messages[..n], m, b);
      assert messages[..n][..m] == messages[..m];
    }
  }

  /** No breakpoint candidate lies among volatile blocks at the very end. */
  lemma CandidateBeforeTail(front: seq<Message>, role: string, own: seq<Block>, tail: seq<Block>, m: nat, b: nat)
    requires AllBlocks(front) && forall x :: x in tail ==> IsVolatile(x)
    requires Candidate(front + [Message(role, Blocks(own + tail))], m, b)
    ensures Offset(front + [Message(role, Blocks(own + tail))], m, b) < |Flat(front)| + |own|
  {
    var messages := front + [Message(role, Blocks(own + tail))];
    if m < |front| {
      assert front[m] in front;
      assert messages[..m] == front[..m];
      OffsetInside(front, m, b);
    } else {
      assert messages[..m] == front;
      StableBefore(own + tail, |own|);
    }
  }

  /** The breakpoint of a request with a volatile tail lies in the history itself. */
  lemma BreakpointLiesInHistory(history: seq<Message>, context: Message, m: nat, b: nat)
    requires AllBlocks(history + [context]) && IsContext(context)
    requires Candidate(Merged(history + [context]), m, b)
    ensures Offset(Merged(history + [context]), m, b) < |Flat(history)|
  {
    var all := history + [context];
    assert all[..|all| - 1] == history;
    assert AllBlocks(history) by {
      assert forall x :: x in history ==> x in all;
    }
    MergedKeepsBlocks(history);
    var front, own := AbsorbLast(Merged(history), context);
    assert Merged(all) == front + [Message(context.role, Blocks(own + context.content.blocks))];
    CandidateBeforeTail(front, context.role, own, context.content.blocks, m, b);
  }

  lemma {:induction false} StableBefore(blocks: seq<Block>, n: nat)
    requires n <= |blocks| && forall i :: n <= i < |blocks| ==> IsVolatile(blocks[i])
    ensures StableLength(blocks) <= n
  {
    if n < |blocks| {
      StableBefore(blocks[..|blocks| - 1], n);
    }
  }

  /** What a request cached is a prefix of the next one: on an append-only history
      everything up to the breakpoint comes again, block by block, whatever the
      contexts at the two ends are. */
  lemma CachedPrefixComesAgain(history: seq<Message>, context: Message, added: seq<Message>, nextContext: Message,
                               m: nat, b: nat)
    requires AllBlocks(history + [context]) && AllBlocks(history + added + [nextContext])
    requires IsContext(context)
    requires IsBreakpoint(Merged(history + [context]), m, b)
    ensures var cached := Offset(Merged(history + [context]), m, b) + 1;
            && cached <= |Flat(history)| <= |Flat(Merged(history + [context]))|
            && Flat(Merged(history + [context]))[..cached] <= Flat(Merged(history + added + [nextContext]))
  {
    BreakpointLiesInHistory(history, context, m, b);
    var first, second := history + [context], history + added + [nextContext];
    MergedKeepsBlocks(first);
    MergedKeepsBlocks(second);
    FlatPrefix(history, first);
    assert history <= second;
    FlatPrefix(history, second);
  }
}

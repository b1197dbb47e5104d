/** Conversation items as the model input sees them: a dictionary reduced to the
    fields the window and compaction code reads.  How many characters an item's
    JSON takes is a function `chars` handed to everything that needs it. */
module ConversationItems {
  import opened Options

  // A missing role or type is the empty string, which no code compares with.
  datatype Item = Item(role: string, kind: string, callId: Option<string>, id: Option<string>, content: Content)

  // `payload` stands for the fields of a structured content that nothing here reads.
  datatype Content = NoContent | Text(text: string) | Structured(payload: string)

  predicate IsUser(item: Item) { item.role == "user" }

  /** Total size of a list of items (`_chars`). */
  function Chars(items: seq<Item>, chars: Item -> nat): nat {
    if items == [] then 0 else chars(items[0]) + Chars(items[1..], chars)
  }

  lemma {:induction false} CharsOfDrop(items: seq<Item>, i: nat, chars: Item -> nat)
    requires i < |items|
    ensures Chars(items[i..], chars) == chars(items[i]) + Chars(items[i + 1..], chars)
  {
    assert items[i..][1..] == items[i + 1..];
  }

  lemma {:induction false} CharsOfSuffix(items: seq<Item>, i: nat, j: nat, chars: Item -> nat)
    requires i <= j <= |items|
    ensures Chars(items[j..], chars) <= Chars(items[i..], chars)
    decreases j - i
  {
    if i < j {
      CharsOfDrop(items, i, chars);
      CharsOfSuffix(items, i + 1, j, chars);
    }
  }
}

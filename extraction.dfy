/** Extraction: walk the nodes of every accepted conversation and collect
    the user texts, the assistant texts and the message dates. The tree's
    parent/child links are never followed: every node of the mapping is
    visited once, in the mapping's order. */
module Extraction {
  import opened Wrappers
  import opened Records
  import opened Seqs

  /** The texts one node adds to the list kept for `role`: the parts of a
      message that has content and was written by `role`, nothing otherwise. */
  function TextsOf(item: MappingItem, role: string): seq<string>
  {
    match item.message
    case None => []
    case Some(m) =>
      if m.content.Some? && m.author.role == role then PartsOrEmpty(m.content.value) else []
  }

  /** The date one node adds: the day of a message with a truthy create time. */
  function DatesOf(item: MappingItem): seq<int>
  {
    match item.message
    case None => []
    case Some(m) => if HasCreateTime(m) then [DayOf(m.createTime.value)] else []
  }

  /** The texts for `role` collected from the nodes of one mapping. */
  function MappingTexts(mapping: seq<MappingItem>, role: string): seq<string>
  {
    FlatMap(mapping, item => TextsOf(item, role))
  }

  /** The dates collected from the nodes of one mapping. */
  function MappingDates(mapping: seq<MappingItem>): seq<int>
  {
    FlatMap(mapping, DatesOf)
  }

  /** The texts for `role` collected from one conversation. */
  function ConversationTexts(c: Conversation, role: string): seq<string>
  {
    MappingTexts(c.mapping, role)
  }

  /** The dates collected from one conversation. */
  function ConversationDates(c: Conversation): seq<int>
  {
    MappingDates(c.mapping)
  }

  /** The texts for `role` collected from all conversations. */
  function CollectedTexts(conversations: seq<Conversation>, role: string): seq<string>
  {
    FlatMap(conversations, c => ConversationTexts(c, role))
  }

  /** The dates collected from all conversations. */
  function CollectedDates(conversations: seq<Conversation>): seq<int>
  {
    FlatMap(conversations, ConversationDates)
  }

  /** Visiting one more node extends each list by that node's share. */
  lemma MappingSnoc(mapping: seq<MappingItem>, j: nat)
    requires j < |mapping|
    ensures MappingTexts(mapping[..j + 1], "user") == MappingTexts(mapping[..j], "user") + TextsOf(mapping[j], "user")
    ensures MappingTexts(mapping[..j + 1], "assistant") == MappingTexts(mapping[..j], "assistant") + TextsOf(mapping[j], "assistant")
    ensures MappingDates(mapping[..j + 1]) == MappingDates(mapping[..j]) + DatesOf(mapping[j])
  {
    FlatMapSnoc(mapping, j, item => TextsOf(item, "user"));
    FlatMapSnoc(mapping, j, item => TextsOf(item, "assistant"));
    FlatMapSnoc(mapping, j, DatesOf);
  }

  /** Visiting one more conversation extends each list by its share. */
  lemma CollectedSnoc(conversations: seq<Conversation>, i: nat)
    requires i < |conversations|
    ensures CollectedTexts(conversations[..i + 1], "user")
         == CollectedTexts(conversations[..i], "user") + ConversationTexts(conversations[i], "user")
    ensures CollectedTexts(conversations[..i + 1], "assistant")
         == CollectedTexts(conversations[..i], "assistant") + ConversationTexts(conversations[i], "assistant")
    ensures CollectedDates(conversations[..i + 1]) == CollectedDates(conversations[..i]) + ConversationDates(conversations[i])
  {
    FlatMapSnoc(conversations, i, c => ConversationTexts(c, "user"));
    FlatMapSnoc(conversations, i, c => ConversationTexts(c, "assistant"));
    FlatMapSnoc(conversations, i, ConversationDates);
  }

  /** The extraction loops. The three lists start empty and grow as the
      conversations are visited. */
  method Extract(conversations: seq<Conversation>)
    returns (userMessages: seq<string>, assistantMessages: seq<string>, messageDates: seq<int>)
    ensures userMessages == CollectedTexts(conversations, "user")
    ensures assistantMessages == CollectedTexts(conversations, "assistant")
    ensures messageDates == CollectedDates(conversations)
  {
    userMessages, assistantMessages, messageDates := [], [], [];
    for i := 0 to |conversations|
      invariant userMessages == CollectedTexts(conversations[..i], "user")
      invariant assistantMessages == CollectedTexts(conversations[..i], "assistant")
      invariant messageDates == CollectedDates(conversations[..i])
    {
      CollectedSnoc(conversations, i);
      userMessages, assistantMessages, messageDates :=
        ExtractNodes(conversations[i].mapping, userMessages, assistantMessages, messageDates);
    }
    assert conversations[..|conversations|] == conversations;
  }

  /** The inner loop over one conversation's nodes: `extend` the text list of
      the message's role with its parts, `append` the message's date. */
  method ExtractNodes(mapping: seq<MappingItem>, user: seq<string>, assistant: seq<string>, dates: seq<int>)
    returns (userMessages: seq<string>, assistantMessages: seq<string>, messageDates: seq<int>)
    ensures userMessages == user + MappingTexts(mapping, "user")
    ensures assistantMessages == assistant + MappingTexts(mapping, "assistant")
    ensures messageDates == dates + MappingDates(mapping)
  {
    userMessages, assistantMessages, messageDates := user, assistant, dates;
    for j := 0 to |mapping|
      invariant userMessages == user + MappingTexts(mapping[..j], "user")
      invariant assistantMessages == assistant + MappingTexts(mapping[..j], "assistant")
      invariant messageDates == dates + MappingDates(mapping[..j])
    {
      MappingSnoc(mapping, j);
      var item := mapping[j];
      if item.message.Some? {
        var message := item.message.value;
        if message.content.Some? {
          if message.author.role == "user" {
            userMessages := userMessages + PartsOrEmpty(message.content.value);
          } else if message.author.role == "assistant" {
            assistantMessages := assistantMessages + PartsOrEmpty(message.content.value);
          }
        }
        if HasCreateTime(message) {
          messageDates := messageDates + [DayOf(message.createTime.value)];
        }
      }
    }
    assert mapping[..|mapping|] == mapping;
  }

  /** A user message with content contributes exactly its parts to the user
      list and nothing to the assistant list; symmetrically for assistant
      messages. */
  lemma AuthoredTexts(item: MappingItem)
    requires item.message.Some? && item.message.value.content.Some?
    ensures item.message.value.author.role == "user" ==>
              TextsOf(item, "user") == PartsOrEmpty(item.message.value.content.value) &&
              TextsOf(item, "assistant") == []
    ensures item.message.value.author.role == "assistant" ==>
              TextsOf(item, "assistant") == PartsOrEmpty(item.message.value.content.value) &&
              TextsOf(item, "user") == []
  {
  }

  /** A node without a message, a message without content, or a message by
      any other role adds no text to either list. */
  lemma NoTextContributed(item: MappingItem)
    requires || item.message.None?
             || item.message.value.content.None?
             || item.message.value.author.role !in {"user", "assistant"}
    ensures TextsOf(item, "user") == [] && TextsOf(item, "assistant") == []
  {
  }

  /** A message adds exactly one date when its create time is truthy and none
      otherwise; a node without a message adds none. */
  lemma DateContributed(item: MappingItem)
    ensures item.message.None? ==> DatesOf(item) == []
    ensures item.message.Some? ==>
              |DatesOf(item)| == (if HasCreateTime(item.message.value) then 1 else 0)
  {
  }

  /** The date a message adds does not depend on its author or its content. */
  lemma DatesIndependentOfText(m: Message, author: Author, content: Option<Content>)
    ensures DatesOf(MappingItem(Some(m))) == DatesOf(MappingItem(Some(m.(author := author, content := content))))
  {
  }

  /** The lists of a split input are the lists of its parts, concatenated. */
  lemma MappingTextsAppend(a: seq<MappingItem>, b: seq<MappingItem>, role: string)
    ensures MappingTexts(a + b, role) == MappingTexts(a, role) + MappingTexts(b, role)
  {
    FlatMapAppend(a, b, item => TextsOf(item, role));
  }

  lemma MappingDatesAppend(a: seq<MappingItem>, b: seq<MappingItem>)
    ensures MappingDates(a + b) == MappingDates(a) + MappingDates(b)
  {
    FlatMapAppend(a, b, DatesOf);
  }

  lemma CollectedTextsAppend(a: seq<Conversation>, b: seq<Conversation>, role: string)
    ensures CollectedTexts(a + b, role) == CollectedTexts(a, role) + CollectedTexts(b, role)
  {
    FlatMapAppend(a, b, c => ConversationTexts(c, role));
  }

  lemma CollectedDatesAppend(a: seq<Conversation>, b: seq<Conversation>)
    ensures CollectedDates(a + b) == CollectedDates(a) + CollectedDates(b)
  {
    FlatMapAppend(a, b, ConversationDates);
  }

  /** A single conversation's lists are its own contributions. */
  lemma ConversationSingleton(c: Conversation, role: string)
    ensures CollectedTexts([c], role) == ConversationTexts(c, role)
    ensures CollectedDates([c]) == ConversationDates(c)
  {
    FlatMapSingleton(c, c => ConversationTexts(c, role));
    FlatMapSingleton(c, ConversationDates);
  }

  /** A single node's lists are its own contributions. */
  lemma ItemSingleton(item: MappingItem, role: string)
    ensures MappingTexts([item], role) == TextsOf(item, role)
    ensures MappingDates([item]) == DatesOf(item)
  {
    FlatMapSingleton(item, item => TextsOf(item, role));
    FlatMapSingleton(item, DatesOf);
  }

  lemma {:induction false} ConversationTextsInPlace(before: seq<Conversation>, c: Conversation,
                                                    after: seq<Conversation>, role: string)
    ensures CollectedTexts(before + [c] + after, role)
         == CollectedTexts(before, role) + ConversationTexts(c, role) + CollectedTexts(after, role)
  {
    CollectedTextsAppend(before + [c], after, role);
    CollectedTextsAppend(before, [c], role);
    ConversationSingleton(c, role);
  }

  lemma {:induction false} ConversationDatesInPlace(before: seq<Conversation>, c: Conversation,
                                                    after: seq<Conversation>)
    ensures CollectedDates(before + [c] + after)
         == CollectedDates(before) + ConversationDates(c) + CollectedDates(after)
  {
    CollectedDatesAppend(before + [c], after);
    CollectedDatesAppend(before, [c]);
    FlatMapSingleton(c, ConversationDates);
  }

  lemma {:induction false} ItemTextsInPlace(left: seq<MappingItem>, item: MappingItem,
                                            right: seq<MappingItem>, role: string)
    ensures MappingTexts(left + [item] + right, role)
         == MappingTexts(left, role) + TextsOf(item, role) + MappingTexts(right, role)
  {
    MappingTextsAppend(left + [item], right, role);
    MappingTextsAppend(left, [item], role);
    ItemSingleton(item, role);
  }

  lemma {:induction false} ItemDatesInPlace(left: seq<MappingItem>, item: MappingItem, right: seq<MappingItem>)
    ensures MappingDates(left + [item] + right)
         == MappingDates(left) + DatesOf(item) + MappingDates(right)
  {
    MappingDatesAppend(left + [item], right);
    MappingDatesAppend(left, [item]);
    FlatMapSingleton(item, DatesOf);
  }

  /** Position: a node's texts land in the list right after those of the
      nodes before it and right before those of the nodes after it,
      in order and with duplicates kept. */
  lemma {:induction false} TextsInPlace(before: seq<Conversation>, left: seq<MappingItem>, item: MappingItem,
                                        right: seq<MappingItem>, after: seq<Conversation>, role: string)
    ensures CollectedTexts(before + [Conversation(left + [item] + right)] + after, role)
         == CollectedTexts(before, role)
            + (MappingTexts(left, role) + TextsOf(item, role) + MappingTexts(right, role))
            + CollectedTexts(after, role)
  {
    ConversationTextsInPlace(before, Conversation(left + [item] + right), after, role);
    ItemTextsInPlace(left, item, right, role);
  }

  /** Position: the same for the date list. */
  lemma {:induction false} DatesInPlace(before: seq<Conversation>, left: seq<MappingItem>, item: MappingItem,
                                        right: seq<MappingItem>, after: seq<Conversation>)
    ensures CollectedDates(before + [Conversation(left + [item] + right)] + after)
         == CollectedDates(before)
            + (MappingDates(left) + DatesOf(item) + MappingDates(right))
            + CollectedDates(after)
  {
    ConversationDatesInPlace(before, Conversation(left + [item] + right), after);
    ItemDatesInPlace(left, item, right);
  }

  /** A text is collected for `role` exactly when some node of some
      conversation is a `role` message with content whose parts contain it. */
  lemma CollectedTextMember(conversations: seq<Conversation>, role: string, s: string)
    ensures s in CollectedTexts(conversations, role) <==>
              exists i, j :: 0 <= i < |conversations| && 0 <= j < |conversations[i].mapping| &&
                var item := conversations[i].mapping[j];
                item.message.Some? && item.message.value.content.Some? &&
                item.message.value.author.role == role &&
                s in PartsOrEmpty(item.message.value.content.value)
  {
    FlatMapMember(conversations, c => ConversationTexts(c, role), s);
    forall i | 0 <= i < |conversations|
      ensures s in MappingTexts(conversations[i].mapping, role) <==>
                exists j :: 0 <= j < |conversations[i].mapping| && s in TextsOf(conversations[i].mapping[j], role)
    {
      FlatMapMember(conversations[i].mapping, item => TextsOf(item, role), s);
    }
  }

  /** A day is collected exactly when some node of some conversation is a
      message with a truthy create time falling on that day. */
  lemma CollectedDateMember(conversations: seq<Conversation>, d: int)
    ensures d in CollectedDates(conversations) <==>
              exists i, j :: 0 <= i < |conversations| && 0 <= j < |conversations[i].mapping| &&
                var item := conversations[i].mapping[j];
                item.message.Some? && HasCreateTime(item.message.value) &&
                DayOf(item.message.value.createTime.value) == d
  {
    FlatMapMember(conversations, ConversationDates, d);
    forall i | 0 <= i < |conversations|
      ensures d in MappingDates(conversations[i].mapping) <==>
                exists j :: 0 <= j < |conversations[i].mapping| && d in DatesOf(conversations[i].mapping[j])
    {
      FlatMapMember(conversations[i].mapping, DatesOf, d);
    }
  }
}

/** The whole run, from the export's raw items to the reported summary:
    accept, extract, count tokens per role, aggregate. */
module Pipeline {
  import opened Wrappers
  import opened Records
  import opened Seqs
  import opened Acceptance
  import opened Extraction
  import opened Tokens
  import opened Aggregation

  /** What the run reports for the given export. */
  function Report<Raw>(items: seq<Raw>, parse: Raw -> Option<Conversation>, tokenLen: string -> nat)
    : Result<Summary, Fatal>
  {
    var conversations := Accepted(items, parse);
    Aggregate(TokenCounts(CollectedTexts(conversations, "user"), tokenLen),
              TokenCounts(CollectedTexts(conversations, "assistant"), tokenLen),
              CollectedDates(conversations))
  }

  /** The script, stage by stage. `rejected` stands for the diagnostics of
      the skipped items; `outcome` for the summary lines, or the fatal error
      that stops the run before any of them is printed. */
  method Run<Raw>(items: seq<Raw>, parse: Raw -> Option<Conversation>, tokenLen: string -> nat)
    returns (rejected: seq<Raw>, outcome: Result<Summary, Fatal>)
    ensures rejected == Rejected(items, parse)
    ensures outcome == Report(items, parse, tokenLen)
  {
    var conversations;
    conversations, rejected := AcceptRecords(items, parse);
    var userMessages, assistantMessages, messageDates := Extract(conversations);
    var userTokenCounts := CountTokens(userMessages, tokenLen);
    var assistantTokenCounts := CountTokens(assistantMessages, tokenLen);
    outcome := Aggregate(userTokenCounts, assistantTokenCounts, messageDates);
  }

  /** The run fails exactly when no accepted message has a truthy create
      time; otherwise the totals are the token counts of the non-empty texts
      of each role, and the cost identities hold. */
  lemma ReportTotals<Raw>(items: seq<Raw>, parse: Raw -> Option<Conversation>, tokenLen: string -> nat)
    ensures var conversations := Accepted(items, parse);
            && (Report(items, parse, tokenLen).Failure? <==> CollectedDates(conversations) == [])
            && (Report(items, parse, tokenLen).Success? ==>
                  var s := Report(items, parse, tokenLen).value;
                  && s.totalUserTokens == Sum(MapSeq(Filter(CollectedTexts(conversations, "user"), IsCounted), tokenLen))
                  && s.totalAssistantTokens == Sum(MapSeq(Filter(CollectedTexts(conversations, "assistant"), IsCounted), tokenLen))
                  && s.totalCost * Million == s.totalUserTokens as real * InputRate + s.totalAssistantTokens as real * OutputRate)
  {
    var conversations := Accepted(items, parse);
    FilterThenCount(CollectedTexts(conversations, "user"), tokenLen);
    FilterThenCount(CollectedTexts(conversations, "assistant"), tokenLen);
  }

  /** A skipped item, wherever it stands, changes nothing but the
      diagnostics: the items after it are still accepted and counted. */
  lemma SkippedItemIgnored<Raw>(a: seq<Raw>, bad: Raw, b: seq<Raw>,
                                parse: Raw -> Option<Conversation>, tokenLen: string -> nat)
    requires parse(bad).None?
    ensures Accepted(a + [bad] + b, parse) == Accepted(a + b, parse)
    ensures Report(a + [bad] + b, parse, tokenLen) == Report(a + b, parse, tokenLen)
    ensures Rejected(a + [bad] + b, parse) == Rejected(a, parse) + [bad] + Rejected(b, parse)
  {
    AcceptedAppend(a + [bad], b, parse);
    AcceptedAppend(a, [bad], parse);
    AcceptedAppend(a, b, parse);
    FlatMapSingleton(bad, item => ParsedOf(parse, item));
    FlatMapSingleton(bad, item => FailedOf(parse, item));
    assert Accepted([bad], parse) == [];
    assert Accepted(a + [bad] + b, parse) == Accepted(a + b, parse);
  }

  /** A sample export: item 0 is one conversation with a user node
      ("hello", at 1700000000) and an assistant node ("hi there", 100
      seconds later); item 1 is malformed. */
  function SampleConversation(): Conversation
  {
    Conversation([
      MappingItem(Some(Message(Author("user"), Some(1700000000), Some(Content("text", Some(["hello"])))))),
      MappingItem(Some(Message(Author("assistant"), Some(1700000100), Some(Content("text", Some(["hi there"]))))))
    ])
  }

  function SampleParse(item: int): Option<Conversation>
  {
    if item == 0 then Some(SampleConversation()) else None
  }

  /** The sample's malformed item is reported and the other one accepted. */
  lemma SampleAcceptance()
    ensures Accepted([0, 1], SampleParse) == [SampleConversation()]
    ensures Rejected([0, 1], SampleParse) == [1]
  {
    AcceptedAppend([0], [1], SampleParse);
    assert [0] + [1] == [0, 1];
    FlatMapSingleton(0, item => ParsedOf(SampleParse, item));
    FlatMapSingleton(0, item => FailedOf(SampleParse, item));
    FlatMapSingleton(1, item => ParsedOf(SampleParse, item));
    FlatMapSingleton(1, item => FailedOf(SampleParse, item));
  }

  /** The sample's texts go to their roles; both timestamps fall on day
      19675 (2023-11-14). */
  lemma SampleExtraction()
    ensures CollectedTexts([SampleConversation()], "user") == ["hello"]
    ensures CollectedTexts([SampleConversation()], "assistant") == ["hi there"]
    ensures CollectedDates([SampleConversation()]) == [19675, 19675]
  {
    var c := SampleConversation();
    var user, assistant := c.mapping[0], c.mapping[1];
    ConversationTextsInPlace([], c, [], "user");
    ConversationTextsInPlace([], c, [], "assistant");
    ConversationDatesInPlace([], c, []);
    ItemTextsInPlace([], user, [assistant], "user");
    ItemTextsInPlace([], user, [assistant], "assistant");
    ItemDatesInPlace([], user, [assistant]);
    FlatMapSingleton(assistant, item => TextsOf(item, "user"));
    FlatMapSingleton(assistant, item => TextsOf(item, "assistant"));
    FlatMapSingleton(assistant, DatesOf);
    assert [] + [c] + [] == [c];
    assert [] + [user] + [assistant] == c.mapping;
    assert DayOf(1700000000) == 19675;
    assert DayOf(1700000100) == 19675;
  }

  /** For the sample, whatever the tokenizer: one day of use, so the average
      per day is the total cost. */
  lemma SampleReport(tokenLen: string -> nat)
    ensures Report([0, 1], SampleParse, tokenLen).Success?
    ensures var s := Report([0, 1], SampleParse, tokenLen).value;
            && s.totalUserTokens == tokenLen("hello")
            && s.totalAssistantTokens == tokenLen("hi there")
            && s.numUniqueDays == 1
            && s.averageCostPerDay == s.totalCost
            && s.averageCostPerMonth * 12.0 == s.totalCost * 365.0
  {
    SampleAcceptance();
    SampleExtraction();
    assert UniqueDays([19675, 19675]) == {19675};
    FlatMapSingleton("hello", text => CountOf(tokenLen, text));
    FlatMapSingleton("hi there", text => CountOf(tokenLen, text));
    assert Sum([tokenLen("hello")]) == tokenLen("hello") by {
      assert [tokenLen("hello")][..0] == [];
    }
    assert Sum([tokenLen("hi there")]) == tokenLen("hi there") by {
      assert [tokenLen("hi there")][..0] == [];
    }
  }
}

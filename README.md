# Conversation-export token cost estimate, in Dafny

This project models `app.py` of a small script. The script reads a chat
export (`conversations.json`, an array of conversation objects) and validates
each object into a `Conversation` record. It collects the text parts written
by the `user` and `assistant` roles and the UTC day of every timestamped
message. It counts the tokens of every non-empty text and prints token
totals, costs at $5 per million input tokens and $15 per million output
tokens, the number of distinct days of use, and the average cost per day and
per month.

The script is a sequence of loops that grow local lists, and the model keeps
that form. Each loop is a `method` over `seq` locals. Its `ensures` ties the
list it builds to a pure specification function of its input, and the
lemmas state what those functions promise.

- `records.dfy` (module `Records`): the record types, reduced to the fields
  the script reads. Also `PartsOrEmpty` (`parts or []`), the truthiness of
  `create_time`, and `DayOf`, which gives the UTC day of a timestamp.
- `acceptance.dfy` (`Acceptance`): the accept/skip loop. Schema validation
  (`Conversation(**item)`) is a parameter `parse: Raw -> Option<Conversation>`.
  The raw JSON item is a type parameter `Raw`.
- `extraction.dfy` (`Extraction`): the nested loop over conversations and
  their mapping nodes. It fills the user-text, assistant-text and date lists.
- `tokens.dfy` (`Tokens`): the two counting loops. The tokenizer is a
  parameter `tokenLen: string -> nat`. Being a Dafny function, it gives the
  same count every time for the same text.
- `aggregation.dfy` (`Aggregation`): the distinct-day count and the cost
  arithmetic. Division by zero days is the error `Failure(ZeroDivision)`,
  because the script dies there before printing any summary line.
- `pipeline.dfy` (`Pipeline`): the whole run, `Run`. Its specification is
  `Report`. The module also holds a worked example: one conversation with
  a user node and an assistant node on the same day, next to a malformed
  item.
- `seqs.dfy` (`Seqs`) and `wrappers.dfy` (`Wrappers`): generic sequence
  combinators (`FlatMap`, `Filter`, `MapSeq`, `Sum`) with their lemmas, and
  `Option`/`Result`.

Representation choices:
- A conversation's `mapping` dictionary is the sequence of its values in
  insertion order, because the script only ever iterates
  `mapping.values()`. Keys and the parent/child links are never read.
- `create_time` is a whole number of epoch seconds. Its day is
  `seconds / 86400`. Dafny's `/` is Euclidean, which for a positive divisor
  is the floor, so instants before 1970 get the day that
  `datetime.fromtimestamp(t, tz=timezone.utc).date()` gives them on
  platforms that accept negative timestamps.
- Costs and averages are exact `real`s.
- The diagnostics printed for a rejected item become the output list
  `rejected`. The eight summary lines become the `Summary` value in
  `outcome`.

## Model

| member | source | states |
|---|---|---|
| `Records.DayOf` | app.py:103 | the day number `d` of a timestamp `t` satisfies `d*86400 <= t < d*86400 + 86400`, i.e. it is the UTC calendar day containing `t` |
| `Acceptance.AcceptRecords` | app.py:74-80 | the loop never stops early: it returns the conversations of all items that parse, in order, and lists every item that fails, in order |
| `Acceptance.AcceptedPlusRejected` | app.py:75-80 | a value is reported if and only if it is an input item that fails to parse, and the accepted and reported lists together are exactly as long as the input, so every item lands in exactly one of them |
| `Acceptance.AcceptedIsSubsequence` | app.py:74-77 | the accepted list is the input's subsequence at the strictly increasing positions that parse; every position that parses is among them, and each accepted record is what its item parsed to |
| `Acceptance.AcceptedAppend` | app.py:75-80 | acceptance and rejection distribute over concatenation of the input, so the order of the input is kept |
| `Acceptance.AcceptedMember` | app.py:75-77 | a conversation is accepted if and only if some input item parses to it |
| `Extraction.Extract` | app.py:89-104 | the three lists equal the user texts, assistant texts and dates collected from every node of every conversation, in order |
| `Extraction.ExtractNodes` | app.py:91-104 | visiting the nodes of one mapping extends each list by exactly those nodes' contributions, in order |
| `Extraction.AuthoredTexts` | app.py:94-98 | a user message with content contributes exactly its parts (null parts read as none) to the user list and nothing to the assistant list; symmetrically for assistant messages |
| `Extraction.NoTextContributed` | app.py:92-98 | a node without a message, a message without content, or a message by any other role contributes no text to either list |
| `Extraction.DateContributed` | app.py:101-104 | a node without a message adds no date; a message adds one date if its create time is present and non-zero, and none otherwise |
| `Extraction.DatesIndependentOfText` | app.py:94-104 | the date a message contributes does not depend on its author or its content |
| `Extraction.TextsInPlace` | app.py:90-98 | a node's texts appear in the collected list between those of the nodes before it and those after it, in order, duplicates kept |
| `Extraction.DatesInPlace` | app.py:90-104 | a node's date appears in the date list between those of the nodes before it and those after it |
| `Extraction.CollectedTextMember` | app.py:90-98 | a text is collected for a role if and only if some node is a message by that role with content whose parts contain the text |
| `Extraction.CollectedDateMember` | app.py:90-104 | a day is collected if and only if some node is a message with a present, non-zero create time on that day |
| `Tokens.CountTokens` | app.py:108-118 | the count list has one entry per non-empty text, equal to its token count, in order; empty texts add no entry |
| `Tokens.FilterThenCount` | app.py:109-118 | counting equals filtering the non-empty texts and then mapping the tokenizer over them |
| `Tokens.TotalTokens` | app.py:109-126 | a role's token total is the sum of the token counts of its non-empty texts; empty texts add nothing whatever the tokenizer says about them |
| `Aggregation.UniqueDays` | app.py:121 | a day is among the distinct days if and only if it was collected |
| `Aggregation.UniqueDaysBound` | app.py:120-122 | the number of distinct days is at most the number of collected dates |
| `Aggregation.UniqueDaysEmpty` | app.py:120-122 | there are no distinct days if and only if no date was collected |
| `Aggregation.Summarize` | app.py:125-131 | input cost is tokens × 5 per million and output cost tokens × 15 per million, both non-negative; the total is their sum; the per-day average times the days is the total and lies between 0 and the total; the per-month average is the per-day average × 365 / 12 |
| `Aggregation.Aggregate` | app.py:120-131 | the arithmetic fails (division by zero) if and only if no date was collected; otherwise the totals are the sums of the count lists and the day count is the number of distinct dates, between 1 and the number of dates |
| `Pipeline.Run` | app.py:74-131 | the stages in sequence report exactly the rejected items and the outcome `Report` specifies |
| `Pipeline.ReportTotals` | app.py:109-131 | the run fails if and only if no accepted message has a present, non-zero create time; otherwise each role's total is the sum of the token counts of its non-empty collected texts, and the total cost is 5 and 15 per million of those totals |
| `Pipeline.SkippedItemIgnored` | app.py:75-80 | an item that fails to parse, at any position, does not stop the run: the items after it are still accepted and counted, the report is the one without it, and it is reported between the diagnostics of the items before and after it |
| `Pipeline.SampleAcceptance` | app.py:75-80 | in the worked example the malformed item is reported and the conversation accepted |
| `Pipeline.SampleExtraction` | app.py:90-104 | in the worked example "hello" goes to the user list, "hi there" to the assistant list, and both timestamps give day 19675 |
| `Pipeline.SampleReport` | app.py:120-131 | in the worked example, whatever the tokenizer, there is one day of use, the per-day average equals the total cost and the per-month average is 365/12 of it |

## Left out

- Reading and parsing `conversations.json` (app.py:70-71) is I/O. The model starts from the sequence of raw items. A missing or malformed file is a fatal error that is not modelled.
- Pydantic validation (app.py:8-67, 77) is the abstract parameter `parse`. Fields the script never reads are not represented: ids, titles, metadata, status, weight, recipient, parent and children. Non-string parts, for example, make `parse` reject the whole conversation.
- The `o200k_base` tokenizer (app.py:106, 111, 117) is a foreign library. It is the abstract parameter `tokenLen`. A tokenizer failure, which would be fatal, is not modelled.
- Floating point: `create_time` is modelled as whole seconds, and costs and averages as exact reals (app.py:35, 127-131). Rounding and fractional timestamps are not modelled.
- `Records.DayOf`: `datetime.fromtimestamp` raises for timestamps outside years 1 to 9999, and on platforms whose `gmtime` rejects negative values (Windows among them) it raises `OSError` for any instant before 1970; the model gives every integer a day instead of those fatal errors.
- Printing (app.py:79-80, 134-141) is output only. The diagnostics are the `rejected` list and the summary is the `Summary` value.
- Duplicate keys in a JSON object and the dictionary's key uniqueness are part of JSON parsing and are not modelled. The mapping is the sequence of its values.

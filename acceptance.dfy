/** Record acceptance: every raw item of the export is either parsed into a
    `Conversation` and kept, or reported and skipped. A failed parse never
    stops the run. Schema validation itself is the parameter `parse`. */
module Acceptance {
  import opened Wrappers
  import opened Records
  import opened Seqs

  /** What one raw item contributes to the accepted list. */
  function ParsedOf<Raw>(parse: Raw -> Option<Conversation>, item: Raw): seq<Conversation>
  {
    match parse(item)
    case Some(c) => [c]
    case None => []
  }

  /** What one raw item contributes to the diagnostics: itself, if it fails. */
  function FailedOf<Raw>(parse: Raw -> Option<Conversation>, item: Raw): seq<Raw>
  {
    if parse(item).None? then [item] else []
  }

  /** The conversations that survive validation, in input order. */
  function Accepted<Raw>(items: seq<Raw>, parse: Raw -> Option<Conversation>): seq<Conversation>
  {
    FlatMap(items, item => ParsedOf(parse, item))
  }

  /** The raw items reported as unparseable, in input order. */
  function Rejected<Raw>(items: seq<Raw>, parse: Raw -> Option<Conversation>): seq<Raw>
  {
    FlatMap(items, item => FailedOf(parse, item))
  }

  /** Positions of the items that parse, in increasing order. */
  function ParsedPositions<Raw>(items: seq<Raw>, parse: Raw -> Option<Conversation>): seq<nat>
  {
    if |items| == 0 then []
    else
      ParsedPositions(items[..|items| - 1], parse)
      + if parse(items[|items| - 1]).Some? then [|items| - 1] else []
  }

  /** The accept/skip loop. `rejected` stands for the diagnostics printed for
      each failing item. */
  method AcceptRecords<Raw>(items: seq<Raw>, parse: Raw -> Option<Conversation>)
    returns (conversations: seq<Conversation>, rejected: seq<Raw>)
    ensures conversations == Accepted(items, parse)
    ensures rejected == Rejected(items, parse)
  {
    conversations, rejected := [], [];
    for i := 0 to |items|
      invariant conversations == Accepted(items[..i], parse)
      invariant rejected == Rejected(items[..i], parse)
    {
      FlatMapSnoc(items, i, item => ParsedOf(parse, item));
      FlatMapSnoc(items, i, item => FailedOf(parse, item));
      var parsed := parse(items[i]);
      if parsed.Some? {
        conversations := conversations + [parsed.value];
      } else {
        rejected := rejected + [items[i]];
      }
    }
    assert items[..|items|] == items;
  }

  /** Every item is accounted for exactly once: accepted or reported. An
      item is reported exactly when it is an input item that fails to parse,
      and the two lists together are as long as the input. */
  lemma {:induction false} AcceptedPlusRejected<Raw>(items: seq<Raw>, parse: Raw -> Option<Conversation>, x: Raw)
    ensures x in Rejected(items, parse) <==> exists i :: 0 <= i < |items| && items[i] == x && parse(x).None?
    ensures |Accepted(items, parse)| + |Rejected(items, parse)| == |items|
    decreases |items|
  {
    FlatMapMember(items, item => FailedOf(parse, item), x);
    if |items| > 0 {
      AcceptedPlusRejected(items[..|items| - 1], parse, x);
    }
  }

  /** The accepted list is the subsequence of the input picked out by the
      positions that parse: same order, nothing dropped, nothing invented. */
  lemma {:induction false} AcceptedIsSubsequence<Raw>(items: seq<Raw>, parse: Raw -> Option<Conversation>)
    ensures |ParsedPositions(items, parse)| == |Accepted(items, parse)|
    ensures forall k :: 0 <= k < |ParsedPositions(items, parse)| ==>
              ParsedPositions(items, parse)[k] < |items| &&
              parse(items[ParsedPositions(items, parse)[k]]) == Some(Accepted(items, parse)[k])
    ensures forall k, l :: 0 <= k < l < |ParsedPositions(items, parse)| ==>
              ParsedPositions(items, parse)[k] < ParsedPositions(items, parse)[l]
    ensures forall i :: 0 <= i < |items| && parse(items[i]).Some? ==> i in ParsedPositions(items, parse)
    decreases |items|
  {
    if |items| > 0 {
      var n := |items| - 1;
      var p := items[..n];
      AcceptedIsSubsequence(p, parse);
      var pos, acc := ParsedPositions(p, parse), Accepted(p, parse);
      FlatMapSnoc(items, n, item => ParsedOf(parse, item));
      assert items[..n + 1] == items;
      assert Accepted(items, parse) == acc + ParsedOf(parse, items[n]);
      assert forall i :: 0 <= i < n ==> items[i] == p[i];
      if parse(items[n]).Some? {
        assert ParsedPositions(items, parse) == pos + [n];
        assert Accepted(items, parse) == acc + [parse(items[n]).value];
      } else {
        assert ParsedPositions(items, parse) == pos;
        assert Accepted(items, parse) == acc;
      }
    }
  }

  /** Accepting is compositional: the records of a longer export are those of
      its first part followed by those of its second part. */
  lemma AcceptedAppend<Raw>(a: seq<Raw>, b: seq<Raw>, parse: Raw -> Option<Conversation>)
    ensures Accepted(a + b, parse) == Accepted(a, parse) + Accepted(b, parse)
    ensures Rejected(a + b, parse) == Rejected(a, parse) + Rejected(b, parse)
  {
    FlatMapAppend(a, b, item => ParsedOf(parse, item));
    FlatMapAppend(a, b, item => FailedOf(parse, item));
  }

  /** A conversation is accepted exactly when some input item parses to it. */
  lemma AcceptedMember<Raw>(items: seq<Raw>, parse: Raw -> Option<Conversation>, c: Conversation)
    ensures c in Accepted(items, parse) <==> exists i :: 0 <= i < |items| && parse(items[i]) == Some(c)
  {
    FlatMapMember(items, item => ParsedOf(parse, item), c);
  }
}

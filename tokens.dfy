/** Token counting: every non-empty collected text is encoded by the
    tokenizer and the length of its encoding is recorded. The tokenizer is
    the parameter `tokenLen`, a deterministic function from a text to its
    number of tokens. */
module Tokens {
  import opened Seqs

  /** Python truthiness of a text: only the empty string is skipped. */
  predicate IsCounted(text: string)
  {
    text != ""
  }

  /** The entry one text adds to the count list: none when empty. */
  function CountOf(tokenLen: string -> nat, text: string): seq<nat>
  {
    if IsCounted(text) then [tokenLen(text)] else []
  }

  /** The token-count list built for one role. */
  function TokenCounts(texts: seq<string>, tokenLen: string -> nat): seq<nat>
  {
    FlatMap(texts, text => CountOf(tokenLen, text))
  }

  /** One counting loop; the user and the assistant lists each get one. */
  method CountTokens(texts: seq<string>, tokenLen: string -> nat) returns (counts: seq<nat>)
    ensures counts == TokenCounts(texts, tokenLen)
  {
    counts := [];
    for i := 0 to |texts|
      invariant counts == TokenCounts(texts[..i], tokenLen)
    {
      FlatMapSnoc(texts, i, text => CountOf(tokenLen, text));
      var text := texts[i];
      if text != "" {
        counts := counts + [tokenLen(text)];
      }
    }
    assert texts[..|texts|] == texts;
  }

  /** Filter, then count: the list holds exactly one entry per non-empty
      text, in the texts' order, and that entry is the text's token count. */
  lemma {:induction false} FilterThenCount(texts: seq<string>, tokenLen: string -> nat)
    ensures TokenCounts(texts, tokenLen) == MapSeq(Filter(texts, IsCounted), tokenLen)
    decreases |texts|
  {
    if |texts| > 0 {
      var p, last := texts[..|texts| - 1], texts[|texts| - 1];
      FilterThenCount(p, tokenLen);
      if IsCounted(last) {
        MapSeqSnoc(Filter(p, IsCounted), last, tokenLen);
      }
    }
  }

  /** The total for a role is the sum of the token counts of its non-empty
      texts: an empty text adds nothing, whatever `tokenLen("")` would be. */
  lemma {:induction false} TotalTokens(texts: seq<string>, tokenLen: string -> nat)
    ensures Sum(TokenCounts(texts, tokenLen)) == Sum(MapSeq(texts, text => if IsCounted(text) then tokenLen(text) else 0))
    decreases |texts|
  {
    if |texts| > 0 {
      var p, last := texts[..|texts| - 1], texts[|texts| - 1];
      var g := text => if IsCounted(text) then tokenLen(text) else 0;
      TotalTokens(p, tokenLen);
      SumAppend(TokenCounts(p, tokenLen), CountOf(tokenLen, last));
      MapSeqSnoc(p, last, g);
      assert p + [last] == texts;
      assert Sum([g(last)]) == g(last) by {
        assert [g(last)][..0] == [];
      }
      assert Sum(CountOf(tokenLen, last)) == g(last) by {
        if IsCounted(last) {
          assert [tokenLen(last)][..0] == [];
        }
      }
      SumAppend(MapSeq(p, g), [g(last)]);
    }
  }
}

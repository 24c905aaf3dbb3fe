/**
 * `AnthropicClient.query`: the text of the reply is the concatenation of
 * its blocks that have text; errors are classified by their text.
 */
module AnthropicClient {
  import opened Wrappers
  import opened Text
  import opened Retry

  const Claude := Client("claude", "claude-sonnet-4-20250514")

  /** A content block: its `text` when it has that attribute. */
  type Block = Option<string>

  datatype ApiCall = Completed(blocks: seq<Block>) | Failed(message: string)

  /** The texts of the blocks that have one, concatenated in order. */
  function BlockText(blocks: seq<Block>): string {
    if blocks == [] then ""
    else BlockText(blocks[..|blocks| - 1]) + blocks[|blocks| - 1].GetOr("")
  }

  /** The text of two runs of blocks is the text of the first followed by that of the second. */
  lemma {:induction false} BlockTextAppend(a: seq<Block>, b: seq<Block>)
    ensures BlockText(a + b) == BlockText(a) + BlockText(b)
    decreases |b|
  {
    if b == [] {
      assert a + b == a;
    } else {
      var n := |b|;
      assert (a + b)[..|a + b| - 1] == a + b[..n - 1];
      assert (a + b)[|a + b| - 1] == b[n - 1];
      BlockTextAppend(a, b[..n - 1]);
      calc {
        BlockText(a + b);
        BlockText(a + b[..n - 1]) + b[n - 1].GetOr("");
        BlockText(a) + BlockText(b[..n - 1]) + b[n - 1].GetOr("");
      }
    }
  }

  /** Blocks without text contribute nothing. */
  lemma {:induction false} BlockTextNoText(blocks: seq<Block>)
    requires forall i :: 0 <= i < |blocks| ==> blocks[i].None?
    ensures BlockText(blocks) == ""
  {
    if blocks != [] {
      BlockTextNoText(blocks[..|blocks| - 1]);
    }
  }

  /** The `content += block.text` loop. */
  method ConcatBlocks(blocks: seq<Block>) returns (content: string)
    ensures content == BlockText(blocks)
  {
    content := "";
    for i := 0 to |blocks|
      invariant content == BlockText(blocks[..i])
    {
      if blocks[i].Some? {
        content := content + blocks[i].value;
      }
      assert blocks[..i + 1][..i] == blocks[..i];
    }
    assert blocks[..|blocks|] == blocks;
  }

  /** `"rate_limit" in error_msg.lower() or "429" in error_msg` */
  predicate RateLimited(m: string) {
    Contains(Lower(m), "rate_limit") || Contains(m, "429")
  }

  /** `"invalid" in error_msg.lower() and "key" in error_msg.lower()` */
  predicate BadKey(m: string) {
    Contains(Lower(m), "invalid") && Contains(Lower(m), "key")
  }

  /** `query(prompt)` */
  function Query(prompt: string, call: ApiCall): (o: Outcome)
    ensures call.Completed? ==>
      o == Returned(QueryResult("claude", "claude-sonnet-4-20250514", prompt, BlockText(call.blocks), true, None))
    ensures call.Failed? ==> (o.RaisedClientError? && o.recoverable <==> RateLimited(call.message))
    ensures call.Failed? ==> (o.RaisedClientError? && !o.recoverable <==> !RateLimited(call.message) && BadKey(call.message))
    ensures call.Failed? && !RateLimited(call.message) && !BadKey(call.message) ==>
      o == Returned(QueryResult("claude", "claude-sonnet-4-20250514", prompt, "", false, Some(call.message)))
    ensures o.RaisedClientError? ==> EndsWith(o.message, call.message)
  {
    match call
    case Completed(blocks) =>
      Returned(QueryResult(Claude.platformName, Claude.modelName, prompt, BlockText(blocks), true, None))
    case Failed(m) =>
      if RateLimited(m) then RaisedClientError("Rate limit exceeded: " + m, true)
      else if BadKey(m) then RaisedClientError("Invalid API key: " + m, false)
      else Returned(QueryResult(Claude.platformName, Claude.modelName, prompt, "", false, Some(m)))
  }

  lemma QueryStops(prompt: string, call: ApiCall)
    ensures Stops(Query(prompt, call)) <==> call.Completed? || (!RateLimited(call.message) && BadKey(call.message))
  {
  }

  /** "Invalid" and "key" may appear in either case and anywhere in the message. */
  lemma BadKeyExample()
    ensures Query("p", Failed("Key INVALID")).RaisedClientError? && !Query("p", Failed("Key INVALID")).recoverable
  {
    var l := LowerExample();
    KeyInvalidParts("Key INVALID", l);
  }

  lemma LowerExample() returns (l: string)
    ensures l == Lower("Key INVALID") && l == "key invalid"
  {
    l := Lower("Key INVALID");
    assert l[0] == 'k' && l[4] == 'i' && l[5] == 'n' && l[6] == 'v';
  }

  lemma KeyInvalidParts(m: string, l: string)
    requires m == "Key INVALID" && l == Lower(m) && l == "key invalid"
    ensures BadKey(m) && !RateLimited(m)
  {
    assert l[0..3] == "key";
    assert l[4..11] == "invalid";
    ContainsAt(l, "key", 0);
    ContainsAt(l, "invalid", 4);
    MissingFirstChar(m, "429");
    MissingFirstChar(l, "rate_limit");
  }
}

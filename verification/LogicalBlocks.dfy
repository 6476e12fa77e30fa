/** The logical blocks of a sequence (vllm/block.py:11-49, vllm/sequence.py:261-288): what the block manager counts. */
module LogicalBlocks {
  import opened Wrappers
  import opened Sequences
  import Arithmetic

  class LogicalTokenBlock {
    const blockNumber: nat
    const blockSize: nat
    const tokenIds: array<int>
    var numTokens: nat

    ghost predicate Valid()
      reads this
    {
      tokenIds.Length == blockSize && numTokens <= blockSize
    }

    constructor (blockNumber: nat, blockSize: nat)
      ensures Valid() && this.blockNumber == blockNumber && this.blockSize == blockSize && numTokens == 0
      ensures fresh(tokenIds)
    {
      this.blockNumber, this.blockSize, numTokens := blockNumber, blockSize, 0;
      tokenIds := new int[blockSize](_ => -1);
    }

    /** `get_token_ids` (44-45). */
    function TokenIds(): seq<int>
      requires Valid()
      reads this, tokenIds
    {
      tokenIds[..numTokens]
    }

    /** `append_tokens` (38-42). */
    method AppendTokens(ids: seq<int>) returns (r: Result<()>)
      requires Valid()
      modifies this`numTokens, tokenIds
      ensures Valid()
      ensures r.Ok? <==> |ids| <= blockSize - old(numTokens)
      ensures r.Err? ==> r.error == AssertionError && unchanged(this) && unchanged(tokenIds)
      ensures r.Ok? ==> TokenIds() == old(TokenIds()) + ids
    {
      if |ids| > blockSize - numTokens {
        return Err(AssertionError);
      }
      forall k | 0 <= k < |ids| {
        tokenIds[numTokens + k] := ids[k];
      }
      numTokens := numTokens + |ids|;
      return Ok(());
    }
  }

  /** Where the tokens of block `i` end. */
  function EndOf(i: nat, blockSize: nat, length: nat): nat {
    if (i + 1) * blockSize < length then (i + 1) * blockSize else length
  }

  class TokenBlocks {
    const blockSize: nat
    var blocks: seq<LogicalTokenBlock>
    ghost var tokens: seq<int>  // everything appended so far

    ghost function Repr(): set<object>
      reads this`blocks
    {
      (set b: LogicalTokenBlock | b in blocks :: b as object) + (set b: LogicalTokenBlock | b in blocks :: b.tokenIds as object)
    }

    /** Block `i` holds the tokens from `i` times the block size on, and no block is empty. */
    ghost predicate Valid()
      reads this, Repr()
    {
      && blockSize > 0 && Separate() && |blocks| == NumBlocks(|tokens|, blockSize)
      && forall i | 0 <= i < |blocks| :: Holds(blocks[i], i)
    }

    ghost predicate Separate()
      reads this`blocks
    {
      forall i, j | 0 <= i < j < |blocks| :: blocks[i] != blocks[j] && blocks[i].tokenIds != blocks[j].tokenIds
    }

    ghost predicate Holds(b: LogicalTokenBlock, i: nat)
      requires blockSize > 0
      reads this`tokens, b, b.tokenIds
    {
      && b.Valid() && b.blockNumber == i && b.blockSize == blockSize
      && i * blockSize < |tokens| && b.TokenIds() == tokens[i * blockSize..EndOf(i, blockSize, |tokens|)]
    }

    constructor (blockSize: nat)
      requires blockSize > 0
      ensures Valid() && this.blockSize == blockSize && tokens == []
    {
      this.blockSize, blocks, tokens := blockSize, [], [];
    }

    /** `_append_logical_block` (261-266). */
    method AppendLogicalBlock()
      requires blockSize > 0 && Separate()
      modifies this`blocks
      ensures |blocks| == |old(blocks)| + 1 && blocks[..|old(blocks)|] == old(blocks) && Separate()
      ensures var b := blocks[|old(blocks)|]; b.Valid() && b.blockNumber == |old(blocks)| && b.blockSize == blockSize && b.numTokens == 0
      ensures fresh(Repr() - old(Repr())) && fresh(blocks[|old(blocks)|]) && fresh(blocks[|old(blocks)|].tokenIds)
    {
      var block := new LogicalTokenBlock(|blocks|, blockSize);
      blocks := blocks + [block];
    }

    /** The last block has room, the ones before it are full. */
    ghost predicate Open()
      reads this, Repr()
    {
      && blockSize > 0 && blocks != [] && Separate()
      && var last := |blocks| - 1;
      && last * blockSize <= |tokens| < last * blockSize + blockSize
      && (forall i | 0 <= i < last :: Holds(blocks[i], i))
      && blocks[last].Valid() && blocks[last].blockNumber == last && blocks[last].blockSize == blockSize
      && blocks[last].TokenIds() == tokens[last * blockSize..]
    }

    /** A last block with room (271-277). */
    method OpenLast()
      requires Valid()
      modifies this`blocks
      ensures Open() && fresh(Repr() - old(Repr())) && tokens == old(tokens)
    {
      LastHolds();
      hide Valid, Holds, NumBlocks;
      if blocks == [] {
        AppendLogicalBlock();
      } else if blocks[|blocks| - 1].numTokens == blocks[|blocks| - 1].blockSize {
        AppendLogicalBlock();
      }
    }

    lemma LastHolds()
      requires Valid()
      ensures forall i | 0 <= i < |blocks| :: Holds(blocks[i], i)
      ensures blockSize > 0 && Separate() && (blocks == [] ==> tokens == [])
      ensures blocks != [] ==>
        && var last := |blocks| - 1;
        && last * blockSize < |tokens| <= last * blockSize + blockSize == |blocks| * blockSize
        && blocks[last].Valid() && blocks[last].blockNumber == last && blocks[last].blockSize == blockSize
        && blocks[last].TokenIds() == tokens[last * blockSize..] && blocks[last].numTokens == |tokens| - last * blockSize
    {
      CountOf();
      if blocks != [] {
        assert Holds(blocks[|blocks| - 1], |blocks| - 1);
      }
    }

    lemma CountOf()
      requires Valid()
      ensures blocks == [] ==> tokens == []
      ensures blocks != [] ==> (|blocks| - 1) * blockSize < |tokens| <= (|blocks| - 1) * blockSize + blockSize
      ensures |blocks| * blockSize == if blocks == [] then 0 else (|blocks| - 1) * blockSize + blockSize
    {
      NumBlocksIs(|tokens|, blockSize, |blocks|);
    }

    /** The rest of the turn (279-282), for what fits into the last block. */
    method Fill(chunk: seq<int>)
      requires Open() && chunk != [] && |tokens| + |chunk| <= |blocks| * blockSize
      modifies this`tokens, blocks[|blocks| - 1], blocks[|blocks| - 1].tokenIds
      ensures Valid() && blocks == old(blocks) && tokens == old(tokens) + chunk
    {
      hide NumBlocks;
      ghost var last: nat, before := |blocks| - 1, tokens;
      assert last * blockSize + blockSize == |blocks| * blockSize;
      var appended := blocks[|blocks| - 1].AppendTokens(chunk);
      tokens := tokens + chunk;
      NumBlocksIs(|tokens|, blockSize, |blocks|);
      forall i | 0 <= i < |blocks| ensures Holds(blocks[i], i) {
        if i < last {
          assert old(Holds(blocks[i], i));
          EarlierSame(before, chunk, i, last, blockSize);
        }
      }
    }

    /** One turn of the loop of `_append_tokens_to_blocks` (270-282). */
    method AppendSome(ids: seq<int>) returns (n: nat)
      requires Valid() && ids != []
      modifies this, Repr()
      ensures Valid() && fresh(Repr() - old(Repr()))
      ensures n > 0 && tokens == old(tokens) + if n <= |ids| then ids[..n] else ids
    {
      hide Valid, Separate, Holds;
      OpenLast();
      var lastBlock := blocks[|blocks| - 1];
      n := lastBlock.blockSize - lastBlock.numTokens;
      LastInRepr();
      Fill(if n <= |ids| then ids[..n] else ids);
    }

    lemma LastInRepr()
      requires Open()
      ensures blocks[|blocks| - 1] in Repr() && blocks[|blocks| - 1].tokenIds in Repr()
      ensures |tokens| + (blockSize - blocks[|blocks| - 1].numTokens) == |blocks| * blockSize
      ensures blocks[|blocks| - 1].numTokens < blockSize
    {
      var last := |blocks| - 1;
      assert blocks[last] in blocks;
      assert last * blockSize + blockSize == |blocks| * blockSize;
    }

    /** `_append_tokens_to_blocks` (268-282). */
    method AppendTokensToBlocks(tokenIds: seq<int>)
      requires Valid()
      modifies this, Repr()
      ensures Valid() && fresh(Repr() - old(Repr()))
      ensures tokens == old(tokens) + tokenIds
    {
      hide Valid;
      var cursor := 0;
      while cursor < |tokenIds|
        invariant Valid() && fresh(Repr() - old(Repr()))
        invariant tokens == old(tokens) + if cursor <= |tokenIds| then tokenIds[..cursor] else tokenIds
        decreases |tokenIds| - cursor
      {
        ghost var before := Repr();
        var n := AppendSome(tokenIds[cursor..]);
        assert forall o | o in Repr() - old(Repr()) :: o in before - old(Repr()) || o in Repr() - before;
        Spliced(tokenIds, cursor, n);
        cursor := cursor + n;
      }
    }
  }

  /** Appending does not reach the blocks before the last. */
  lemma EarlierSame(tokens: seq<int>, chunk: seq<int>, i: nat, last: nat, blockSize: nat)
    requires i < last && last * blockSize <= |tokens|
    ensures i * blockSize <= EndOf(i, blockSize, |tokens|) <= |tokens|
    ensures EndOf(i, blockSize, |tokens + chunk|) == EndOf(i, blockSize, |tokens|)
    ensures (tokens + chunk)[i * blockSize..EndOf(i, blockSize, |tokens|)] == tokens[i * blockSize..EndOf(i, blockSize, |tokens|)]
  {
    Arithmetic.MulAtLeast(i + 1, last, blockSize);
    Arithmetic.MulAtLeast(i, i + 1, blockSize);
  }

  lemma Spliced(s: seq<int>, cursor: nat, n: nat)
    requires cursor < |s|
    ensures var rest := s[cursor..];
      s[..cursor] + (if n <= |rest| then rest[..n] else rest) == if cursor + n <= |s| then s[..cursor + n] else s
  {
  }

  lemma NumBlocksIs(length: nat, blockSize: nat, count: nat)
    requires blockSize > 0
    ensures NumBlocks(length, blockSize) == count <==>
      (count == 0 && length == 0) || (count > 0 && (count - 1) * blockSize < length <= count * blockSize)
  {
    var q := (length + blockSize - 1) / blockSize;
    Arithmetic.DivModOf(length + blockSize - 1, blockSize);
    if count < q {
      Arithmetic.MulAtLeast(count, q - 1, blockSize);
      assert (q - 1) * blockSize == q * blockSize - blockSize;
    } else if count > q {
      Arithmetic.MulAtLeast(q, count - 1, blockSize);
    } else if q > 0 {
      assert (q - 1) * blockSize == q * blockSize - blockSize;
    }
  }
}

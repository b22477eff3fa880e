/**
 `_Sequence` and `LogicalTokenBlock`: a sequence keeps its tokens twice, as prompt and output lists and packed into
 logical blocks. The scheduler reads only the number of blocks and whether the last one is full.
 */
module Sequences {
  import opened Outcomes
  import opened Arithmetic
  import Scheduler

  /** A fixed-size buffer of which the first `numTokens` cells are in use. */
  datatype LogicalBlock = LogicalBlock(tokens: seq<nat>, numTokens: nat) {
    predicate IsFull() {
      numTokens == |tokens|
    }
  }

  function NewBlock(size: nat): LogicalBlock {
    LogicalBlock(seq(size, _ => 0), 0)
  }

  /** `append_token_id`: a full block is a panic. */
  function Put(b: LogicalBlock, token: nat): Outcome<LogicalBlock> {
    if b.numTokens >= |b.tokens| then Panic
    else Done(LogicalBlock(b.tokens[b.numTokens := token], b.numTokens + 1))
  }

  /** `append_token_to_blocks` as intended: opens a block when there is none or the last one is full. */
  function Append(size: nat, blocks: seq<LogicalBlock>, token: nat): Outcome<seq<LogicalBlock>> {
    if blocks == [] || blocks[|blocks| - 1].IsFull() then
      var b :- Put(NewBlock(size), token);
      Done(blocks + [b])
    else
      var b :- Put(blocks[|blocks| - 1], token);
      Done(blocks[|blocks| - 1 := b])
  }

  /** As written: without a last block the branch for a block with space unwraps the missing block. */
  function AppendAsWritten(size: nat, blocks: seq<LogicalBlock>, token: nat): Outcome<seq<LogicalBlock>> {
    if blocks == [] then
      Panic
    else if !blocks[|blocks| - 1].IsFull() then
      var b :- Put(blocks[|blocks| - 1], token);
      Done(blocks[|blocks| - 1 := b])
    else
      var b :- Put(NewBlock(size), token);
      Done(blocks + [b])
  }

  function AppendAllAsWritten(size: nat, blocks: seq<LogicalBlock>, tokens: seq<nat>): Outcome<seq<LogicalBlock>>
    decreases |tokens|
  {
    if tokens == [] then
      Done(blocks)
    else
      var blocks' :- AppendAsWritten(size, blocks, tokens[0]);
      AppendAllAsWritten(size, blocks', tokens[1..])
  }

  /** The tokens the blocks hold. */
  function Flatten(blocks: seq<LogicalBlock>): seq<nat> {
    if blocks == [] then []
    else
      var b := blocks[|blocks| - 1];
      Flatten(blocks[..|blocks| - 1]) + if b.numTokens <= |b.tokens| then b.tokens[..b.numTokens] else []
  }

  /** All blocks have the same size, all but the last are full, and the last holds at least one token. */
  ghost predicate Packed(size: nat, blocks: seq<LogicalBlock>) {
    && (forall i :: 0 <= i < |blocks| ==> |blocks[i].tokens| == size && 0 < blocks[i].numTokens <= size)
    && (forall i :: 0 <= i < |blocks| - 1 ==> blocks[i].IsFull())
  }

  lemma {:induction false} FullLength(size: nat, blocks: seq<LogicalBlock>)
    requires forall i :: 0 <= i < |blocks| ==> |blocks[i].tokens| == size && blocks[i].IsFull()
    ensures |Flatten(blocks)| == |blocks| * size
    decreases |blocks|
  {
    if blocks != [] {
      FullLength(size, blocks[..|blocks| - 1]);
      assert |blocks| * size == (|blocks| - 1) * size + size;
    }
  }

  /** Appending a token keeps the blocks packed and appends exactly that token to their contents. */
  lemma AppendPacked(size: nat, blocks: seq<LogicalBlock>, token: nat)
    requires size > 0 && Packed(size, blocks)
    ensures Append(size, blocks, token).Done?
    ensures var blocks' := Append(size, blocks, token).value;
            Packed(size, blocks') && Flatten(blocks') == Flatten(blocks) + [token]
  {
    var n := |blocks| - 1;
    if blocks == [] || blocks[n].IsFull() {
      var b := Put(NewBlock(size), token).value;
      assert (blocks + [b])[..|blocks|] == blocks;
      assert b.tokens[..1] == [token];
    } else {
      var b := Put(blocks[n], token).value;
      assert blocks[n := b][..n] == blocks[..n];
      assert b.tokens[..b.numTokens] == blocks[n].tokens[..blocks[n].numTokens] + [token];
    }
  }

  /** What the scheduler reads of the blocks is determined by the number of tokens. */
  lemma BlocksFromLength(size: nat, blocks: seq<LogicalBlock>)
    requires size > 0 && Packed(size, blocks)
    ensures |blocks| == Scheduler.LogicalBlocks(size, |Flatten(blocks)|)
    ensures (blocks != [] && blocks[|blocks| - 1].IsFull()) <==> Scheduler.LastBlockFull(size, |Flatten(blocks)|)
  {
    if blocks == [] {
      QuotientUnique(size - 1, size, 0, size - 1);
    } else {
      hide CeilDiv;
      var n := |blocks| - 1;
      FullLength(size, blocks[..n]);
      LastBlockArithmetic(size, n, blocks[n].numTokens, |Flatten(blocks)|);
    }
  }

  lemma LastBlockArithmetic(size: nat, n: nat, k: nat, len: nat)
    requires 0 < k <= size && len == n * size + k
    ensures CeilDiv(len, size) == n + 1 && (len % size == 0 <==> k == size)
  {
    CeilStep(len, size);
    if k == size {
      assert len == (n + 1) * size;
      QuotientUnique(len, size, n + 1, 0);
    } else {
      QuotientUnique(len, size, n, k);
    }
  }

  /** `_Sequence::new` as written panics exactly on nonempty prompts. */
  lemma NewAsWrittenPanicsIff(size: nat, prompt: seq<nat>)
    ensures AppendAllAsWritten(size, [], prompt).Panic? <==> prompt != []
  {
  }

  /** Once a block exists, the code as written does what is intended. */
  lemma AppendAsWrittenAgreesIff(size: nat, blocks: seq<LogicalBlock>, token: nat)
    requires size > 0 && Packed(size, blocks)
    ensures AppendAsWritten(size, blocks, token) == Append(size, blocks, token) <==> blocks != []
  {
    AppendPacked(size, blocks, token);
  }

  class Sequence {
    const blockSize: nat
    var promptTokens: seq<nat>
    var outputTokens: seq<nat>
    var logicalBlocks: seq<LogicalBlock>

    /** The two representations agree. */
    ghost predicate Valid()
      reads this
    {
      blockSize > 0 && Packed(blockSize, logicalBlocks) && Flatten(logicalBlocks) == promptTokens + outputTokens
    }

    constructor (prompt: seq<nat>, size: nat)
      requires size > 0
      ensures Valid() && promptTokens == prompt && outputTokens == [] && blockSize == size
    {
      blockSize := size;
      promptTokens, outputTokens, logicalBlocks := prompt, [], [];
      new;
      var k := 0;
      while k < |prompt|
        invariant k <= |prompt| && promptTokens == prompt && outputTokens == []
        invariant Packed(blockSize, logicalBlocks) && Flatten(logicalBlocks) == prompt[..k]
      {
        ghost var blocks := logicalBlocks;
        AppendToken(prompt[k]);
        assert prompt[..k + 1] == prompt[..k] + [prompt[k]];
        k := k + 1;
      }
      assert prompt[..k] == prompt == prompt + [];
    }

    /** `append_token_to_blocks`. */
    method AppendToken(token: nat)
      requires blockSize > 0 && Packed(blockSize, logicalBlocks)
      modifies this`logicalBlocks
      ensures Packed(blockSize, logicalBlocks)
      ensures Flatten(logicalBlocks) == old(Flatten(logicalBlocks)) + [token]
    {
      AppendPacked(blockSize, logicalBlocks, token);
      var n := |logicalBlocks| - 1;
      if logicalBlocks == [] || logicalBlocks[n].IsFull() {
        logicalBlocks := logicalBlocks + [LogicalBlock(NewBlock(blockSize).tokens[0 := token], 1)];
      } else {
        var b := logicalBlocks[n];
        logicalBlocks := logicalBlocks[n := LogicalBlock(b.tokens[b.numTokens := token], b.numTokens + 1)];
      }
    }

    /** `add_token`. */
    method AddToken(token: nat)
      requires Valid()
      modifies this
      ensures Valid() && promptTokens == old(promptTokens) && outputTokens == old(outputTokens) + [token]
    {
      AppendToken(token);
      outputTokens := outputTokens + [token];
      assert promptTokens + outputTokens == old(promptTokens + outputTokens) + [token];
    }

    /** `blocks_to_add_new_tok`, as the scheduler model reads it. */
    method BlocksToAddNewTok() returns (n: nat)
      requires Valid()
      ensures n == if Scheduler.LastBlockFull(blockSize, |promptTokens| + |outputTokens|) then 1 else 0
    {
      BlocksFromLength(blockSize, logicalBlocks);
      n := if logicalBlocks != [] && logicalBlocks[|logicalBlocks| - 1].IsFull() then 1 else 0;
    }

    /** `get_logical_token_blocks`. */
    method NumLogicalBlocks() returns (n: nat)
      requires Valid()
      ensures n == Scheduler.LogicalBlocks(blockSize, |promptTokens| + |outputTokens|)
    {
      BlocksFromLength(blockSize, logicalBlocks);
      n := |logicalBlocks|;
    }

    /** `get_token_ids`. */
    method TokenIds() returns (ids: seq<nat>)
      requires Valid()
      ensures ids == Flatten(logicalBlocks)
    {
      ids := promptTokens + outputTokens;
    }
  }
}

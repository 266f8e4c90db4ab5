/** LUT overhead of chaining physical blocks in depth: the address decoder and the
    4:1 output multiplexer tree. */
module Overhead {
  import opened RamTypes

  /** Decoder LUTs for a chain of `s` blocks: none for one block, one for two, `s` beyond. */
  function DecoderLuts(s: int): int
  {
    if s <= 1 then 0 else if s == 2 then 1 else s
  }

  /** Node count of a 4:1 multiplexer tree over `n` inputs: each level replaces `n` by
      ceil(n / 4) nodes until a single output remains. */
  function MuxTreeNodes(n: int): nat
    decreases n
  {
    if n <= 1 then 0 else (n + 3) / 4 + MuxTreeNodes((n + 3) / 4)
  }

  /** Mux LUTs for a chain of `s` blocks feeding `width` output bits: one tree per bit. */
  function MuxCount(s: int, width: int): int
  {
    if s <= 1 then 0 else width * MuxTreeNodes(s)
  }

  /** Extra LUTs of a candidate with `s` blocks in series: decoder plus mux, doubled when a
      chained memory is true dual port (each port needs its own decode and mux). */
  function ExtraLuts(s: int, width: int, mode: MemMode): int
  {
    var luts := DecoderLuts(s) + MuxCount(s, width);
    if s > 1 && mode == TrueDualPort then 2 * luts else luts
  }

  /** The level-by-level reduction loop that counts mux LUTs. */
  method MuxLuts(s: int, width: int) returns (luts: int)
    ensures luts == MuxCount(s, width)
  {
    if s <= 1 {
      return 0;
    }
    var n := s;
    var totalNodes := 0;
    while n > 1
      invariant n >= 1
      invariant totalNodes + MuxTreeNodes(n) == MuxTreeNodes(s)
      decreases n
    {
      var levelNodes := (n + 3) / 4;
      totalNodes := totalNodes + levelNodes;
      n := levelNodes;
    }
    luts := width * totalNodes;
  }

  /** The decoder costs nothing for a single block, one LUT for two blocks, and one LUT per block
      for longer chains. */
  lemma DecoderLutsRange(s: int)
    ensures DecoderLuts(s) == 0 <==> s <= 1
    ensures s >= 2 ==> 1 <= DecoderLuts(s) <= s
    ensures s == 2 ==> DecoderLuts(s) == 1
    ensures s >= 3 ==> DecoderLuts(s) == s
  {
  }

  /** A 4:1 tree over n >= 2 inputs has at least one and fewer than n nodes. */
  lemma {:induction false} MuxTreeNodesRange(n: int)
    requires n >= 2
    ensures 1 <= MuxTreeNodes(n) <= n - 1
  {
    var m := (n + 3) / 4;
    if m >= 2 {
      MuxTreeNodesRange(m);
      assert 2 * m <= n;
    }
  }

  /** Closed form of the tree size over the chain lengths the enumerator admits (at most 16):
      one node for 2 to 4 inputs, otherwise ceil(n / 4) leaves-level nodes plus the root. */
  lemma MuxTreeNodesUpTo16(n: int)
    requires 2 <= n <= 16
    ensures MuxTreeNodes(n) == (if n <= 4 then 1 else (n + 3) / 4 + 1)
  {
    var m := (n + 3) / 4;
    if m >= 2 {
      assert MuxTreeNodes(m) == 1;
    }
  }

  /** Extra LUTs of a chain of at most 16 blocks, stated without the reduction loop: nothing for
      one block; otherwise the decoder plus `width` LUTs per tree node, doubled for true dual port. */
  lemma ExtraLutsClosedForm(s: int, width: int, mode: MemMode)
    requires 1 <= s <= 16
    ensures s == 1 ==> ExtraLuts(s, width, mode) == 0
    ensures s >= 2 ==>
              ExtraLuts(s, width, mode) ==
              (if mode == TrueDualPort then 2 else 1) *
              ((if s == 2 then 1 else s) + width * (if s <= 4 then 1 else (s + 3) / 4 + 1))
  {
    if s >= 2 {
      MuxTreeNodesUpTo16(s);
    }
  }
}

/** Tokens: the buffers passed between components.

    Only what the bookkeeping inspects is modelled: the identity of the
    object (pointer equality in the source), its token code and its used
    size.  The numeric contents belong to the numeric backend. */
module Tokens {

  /** `token_mem_block` is the only code the core accepts; every other code
      of the token table is `OtherCode`. */
  datatype TokenCode = MemBlock | OtherCode

  datatype Token = Token(id: nat, code: TokenCode, usedSize: nat)

  /** A fresh memory-block token with `usedSize` cells in use. */
  function NewMemBlock(id: nat, usedSize: nat): (t: Token)
    ensures t.code == MemBlock && t.id == id && t.usedSize == usedSize
  {
    Token(id, MemBlock, usedSize)
  }

  /** `TokenMemoryBlock::resize`: same object, new used size. */
  function Resize(t: Token, usedSize: nat): (r: Token)
    ensures r.id == t.id && r.code == t.code && r.usedSize == usedSize
  {
    t.(usedSize := usedSize)
  }
}

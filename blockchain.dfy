/**
 * The in-memory ledger object `BlockChain`: the list of blocks and the pool of
 * pending transactions as mutable fields, each operation proved against the
 * transition of the same name in module Ledger.
 */
module BlockChains {
  import opened Wrappers
  import opened Ledger

  class BlockChain {
    var chain: seq<Block>
    var currentTransactions: seq<Transaction>
    /** The block digest (SHA-256 over the canonical JSON of the block), fixed for the object's lifetime. */
    const hash: Block -> string

    /** The two fields as a ledger value. */
    function Snapshot(): State
      reads this
    {
      State(chain, currentTransactions)
    }

    ghost predicate Valid()
      reads this
    {
      Ledger.Valid(Snapshot())
    }

    /** Start with an empty chain and pool, then seal the genesis block with proof 100 and link 1. */
    constructor (genesisTime: real, hash: Block -> string)
      ensures this.hash == hash
      ensures Snapshot() == Init(genesisTime, hash)
      ensures Valid()
    {
      this.hash := hash;
      chain := [];
      currentTransactions := [];
      new;
      var _ := NewBlock(GenesisProof, Some(GenesisLink), genesisTime);
    }

    /**
     * Seal the pending pool into a new block and append it. `previousHash` is
     * `None` when the caller leaves the link to be computed; as in Python's
     * `previous_hash or ...`, a falsy `Some(Sentinel(0))` or `Some(Digest(""))`
     * is treated like `None`.
     */
    method NewBlock(proof: int, previousHash: Option<Link>, timestamp: real) returns (block: Block)
      requires CanSeal(Snapshot(), previousHash)
      modifies this
      ensures Snapshot() == Seal(old(Snapshot()), proof, previousHash, timestamp, hash)
      ensures block == Last(chain)
      ensures old(Valid()) ==> Valid()
    {
      var link := if Supplied(previousHash) then previousHash.value else Digest(hash(chain[|chain| - 1]));
      block := Block(|chain| + 1, timestamp, currentTransactions, proof, link);
      currentTransactions := [];
      chain := chain + [block];
    }

    /** Queue a transfer for the next block and return the index that block will receive. */
    method NewTransaction(sender: string, recip: string, amount: int) returns (index: int)
      requires chain != []
      modifies this
      ensures Snapshot() == Submit(old(Snapshot()), Transaction(sender, recip, amount))
      ensures index == LastBlock().index + 1 && index == NextIndex(old(Snapshot()))
      ensures old(Valid()) ==> Valid() && index == |chain| + 1
    {
      currentTransactions := currentTransactions + [Transaction(sender, recip, amount)];
      index := LastBlock().index + 1;
    }

    /** The tail of the chain; under the invariant its index is the chain length. */
    function LastBlock(): (b: Block)
      reads this
      requires chain != []
      ensures b == Last(chain)
      ensures Valid() ==> b.index == |chain|
    {
      chain[|chain| - 1]
    }
  }

  /**
   * A client run: start a ledger, queue one transfer from "A" to "B", then mine
   * with the link left to be computed. The receipt and the sealed block are
   * fixed by the contracts above alone.
   */
  method MineOneTransfer(genesisTime: real, minedTime: real, proof: int, hash: Block -> string)
    returns (receipt: int, block: Block)
    ensures receipt == 2 && block.index == receipt
    ensures block.transactions == [Transaction("A", "B", 5)] && block.proof == proof
    ensures block.link == Digest(hash(Block(1, genesisTime, [], GenesisProof, GenesisLink)))
  {
    var ledger := new BlockChain(genesisTime, hash);
    receipt := ledger.NewTransaction("A", "B", 5);
    block := ledger.NewBlock(proof, None, minedTime);
  }
}

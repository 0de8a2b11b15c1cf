/**
 * The ledger as a value: the chain of sealed blocks and the pool of pending
 * transactions, and the two transitions the BlockChain object makes on them,
 * sealing the pool into a new block and appending a transaction to the pool.
 */
module Ledger {
  import opened Wrappers

  /** A transfer record `{sender, recipient, amount}` waiting in, or sealed from, the pool. */
  datatype Transaction = Transaction(sender: string, recipient: string, amount: int)

  /**
   * The `hash` field of a block, i.e. the link to its predecessor. The genesis
   * block stores the integer 1; every later block stores a hex digest string.
   */
  datatype Link = Sentinel(n: int) | Digest(hex: string)

  /** A block record `{index, timestamp, transactions, proof, hash}`. */
  datatype Block = Block(index: int, timestamp: real, transactions: seq<Transaction>, proof: int, link: Link)

  /** The two fields of a BlockChain object: `chain` and `current_transactions`. */
  datatype State = State(chain: seq<Block>, pending: seq<Transaction>)

  /** The proof and the link the constructor gives the genesis block. */
  const GenesisProof: int := 100
  const GenesisLink: Link := Sentinel(1)

  /** Python truthiness of a link value: `0` and `""` are falsy. */
  predicate Truthy(l: Link) {
    match l
    case Sentinel(n) => n != 0
    case Digest(h) => h != ""
  }

  /**
   * Whether `previous_hash or ...` takes the supplied argument. `None`, and also
   * the falsy values `0` and `""`, fall through to hashing the last block.
   */
  predicate Supplied(previousHash: Option<Link>) {
    previousHash.Some? && Truthy(previousHash.value)
  }

  /** `self.chain[-1]`. */
  function Last(chain: seq<Block>): Block
    requires chain != []
  {
    chain[|chain| - 1]
  }

  /** Sealing needs a last block to hash unless a truthy previous hash is supplied (otherwise `chain[-1]` raises). */
  predicate CanSeal(s: State, previousHash: Option<Link>) {
    s.chain != [] || Supplied(previousHash)
  }

  /** The shape of the block the constructor seeds the chain with (its timestamp is whatever the clock said). */
  predicate IsGenesis(b: Block) {
    b.index == 1 && b.transactions == [] && b.proof == GenesisProof && b.link == GenesisLink
  }

  /** Every block records its 1-based position in the chain. */
  predicate Indexed(chain: seq<Block>) {
    forall i :: 0 <= i < |chain| ==> chain[i].index == i + 1
  }

  /** The object invariant: the chain is never empty, starts with the genesis block and is indexed 1..N. */
  predicate Valid(s: State) {
    s.chain != [] && IsGenesis(s.chain[0]) && Indexed(s.chain)
  }

  /** Every block after the first stores the digest of its predecessor. */
  predicate Linked(chain: seq<Block>, hash: Block -> string) {
    forall i :: 0 <= i < |chain| - 1 ==> chain[i + 1].link == Digest(hash(chain[i]))
  }

  /** The transactions sealed in a chain, block by block, in order. */
  function Sealed(chain: seq<Block>): seq<Transaction> {
    if chain == [] then [] else chain[0].transactions + Sealed(chain[1..])
  }

  /** Every transaction the ledger holds: the sealed ones followed by the pending ones. */
  function Holdings(s: State): seq<Transaction> {
    Sealed(s.chain) + s.pending
  }

  /** Appending a block appends its transactions to the sealed history. */
  lemma {:induction false} SealedAppend(chain: seq<Block>, b: Block)
    ensures Sealed(chain + [b]) == Sealed(chain) + b.transactions
  {
    if chain == [] {
      assert [] + [b] == [b];
      assert Sealed([b]) == b.transactions + Sealed([]);
    } else {
      assert (chain + [b])[0] == chain[0];
      assert (chain + [b])[1..] == chain[1..] + [b];
      SealedAppend(chain[1..], b);
    }
  }

  /**
   * `new_block`: seal the pending pool into a block with index `len(chain) + 1`,
   * the given proof and timestamp, and the supplied previous hash or else the
   * digest of the last block; empty the pool and append the block.
   */
  function Seal(s: State, proof: int, previousHash: Option<Link>, timestamp: real, hash: Block -> string): (r: State)
    requires CanSeal(s, previousHash)
    ensures |r.chain| == |s.chain| + 1 && r.chain[..|s.chain|] == s.chain
    ensures Last(r.chain).index == |s.chain| + 1
    ensures Last(r.chain).transactions == s.pending && r.pending == []
    ensures Last(r.chain).proof == proof && Last(r.chain).timestamp == timestamp
    ensures Supplied(previousHash) ==> Last(r.chain).link == previousHash.value
    ensures !Supplied(previousHash) ==> Last(r.chain).link == Digest(hash(Last(s.chain)))
    ensures Valid(s) ==> Valid(r)
  {
    var link := if Supplied(previousHash) then previousHash.value else Digest(hash(Last(s.chain)));
    State(s.chain + [Block(|s.chain| + 1, timestamp, s.pending, proof, link)], [])
  }

  /** Sealing neither loses nor duplicates a transaction: it only moves the pool into the chain. */
  lemma SealConserves(s: State, proof: int, previousHash: Option<Link>, timestamp: real, hash: Block -> string)
    requires CanSeal(s, previousHash)
    ensures Holdings(Seal(s, proof, previousHash, timestamp, hash)) == Holdings(s)
  {
    var r := Seal(s, proof, previousHash, timestamp, hash);
    assert r.chain == s.chain + [Last(r.chain)];
    SealedAppend(s.chain, Last(r.chain));
  }

  /** Sealing with the link left to be computed keeps the chain hash-linked. */
  lemma SealKeepsLinked(s: State, proof: int, previousHash: Option<Link>, timestamp: real, hash: Block -> string)
    requires s.chain != [] && !Supplied(previousHash) && Linked(s.chain, hash)
    ensures Linked(Seal(s, proof, previousHash, timestamp, hash).chain, hash)
  {
  }

  /**
   * `new_transaction` on the state: append one record at the end of the pool;
   * the chain is untouched.
   */
  function Submit(s: State, t: Transaction): (r: State)
    ensures r.chain == s.chain && |r.pending| == |s.pending| + 1
    ensures r.pending[..|s.pending|] == s.pending && r.pending[|s.pending|] == t
    ensures Holdings(r) == Holdings(s) + [t]
    ensures Valid(s) ==> Valid(r)
  {
    State(s.chain, s.pending + [t])
  }

  /**
   * The value `new_transaction` returns, `last_block['index'] + 1`: under the
   * invariant it is the index the next sealed block will receive.
   */
  function NextIndex(s: State): (k: int)
    requires s.chain != []
    ensures Valid(s) ==> k == |s.chain| + 1
  {
    Last(s.chain).index + 1
  }

  /**
   * The constructor: seal the (empty) pool of an empty chain with the genesis
   * proof and the sentinel link, leaving one genesis block and an empty pool.
   */
  function Init(timestamp: real, hash: Block -> string): (r: State)
    ensures Valid(r) && |r.chain| == 1 && r.pending == []
    ensures r.chain[0] == Block(1, timestamp, [], GenesisProof, GenesisLink)
  {
    Seal(State([], []), GenesisProof, Some(GenesisLink), timestamp, hash)
  }

  /**
   * A transaction submitted to a valid ledger lands, at the position it was
   * queued at, in the block whose index `new_transaction` returned, however
   * many other transactions are submitted before that block is sealed.
   */
  lemma {:induction false} ReceiptNamesLandingBlock(s: State, t: Transaction, later: seq<Transaction>,
                                                    proof: int, previousHash: Option<Link>, timestamp: real, hash: Block -> string)
    requires Valid(s)
    ensures var s1 := Submit(s, t);
            var sealed := Seal(SubmitAll(s1, later), proof, previousHash, timestamp, hash);
            Last(sealed.chain).index == NextIndex(s1) &&
            Last(sealed.chain).transactions == s.pending + [t] + later
  {
  }

  /** Submit each transaction of `txs` in turn: the pool grows by exactly `txs`, in order, and the chain is untouched. */
  function SubmitAll(s: State, txs: seq<Transaction>): (r: State)
    ensures r.chain == s.chain && r.pending == s.pending + txs
    decreases |txs|
  {
    if txs == [] then s
    else
      var init := txs[..|txs| - 1];
      assert txs == init + [txs[|txs| - 1]];
      Submit(SubmitAll(s, init), txs[|txs| - 1])
  }
}

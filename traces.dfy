/**
 * Whole histories of a BlockChain object: the constructor followed by any
 * sequence of `new_transaction` and `new_block` calls, and what holds of every
 * such history.
 */
module Traces {
  import opened Wrappers
  import opened Ledger

  /** One call made on the object after construction. */
  datatype Call =
    | TransactionCall(tx: Transaction)
    | BlockCall(proof: int, previousHash: Option<Link>, timestamp: real)

  /** The state after one call. */
  function Step(s: State, c: Call, hash: Block -> string): State
    requires s.chain != []
  {
    match c
    case TransactionCall(t) => Submit(s, t)
    case BlockCall(proof, previousHash, timestamp) => Seal(s, proof, previousHash, timestamp, hash)
  }

  /** The state after construction at `genesisTime` and then `calls`, in order; the invariant holds throughout. */
  function Run(genesisTime: real, calls: seq<Call>, hash: Block -> string): (r: State)
    ensures Valid(r)
    decreases |calls|
  {
    if calls == [] then Init(genesisTime, hash)
    else Step(Run(genesisTime, calls[..|calls| - 1], hash), calls[|calls| - 1], hash)
  }

  /** The transactions submitted by `calls`, in submission order. */
  function Submitted(calls: seq<Call>): seq<Transaction>
    decreases |calls|
  {
    if calls == [] then []
    else
      Submitted(calls[..|calls| - 1]) +
      match calls[|calls| - 1]
      case TransactionCall(t) => [t]
      case BlockCall(_, _, _) => []
  }

  /**
   * No transaction is ever dropped or duplicated: the sealed blocks followed by
   * the pool hold exactly the submitted transactions, in submission order.
   */
  lemma {:induction false} RunConserves(genesisTime: real, calls: seq<Call>, hash: Block -> string)
    ensures Holdings(Run(genesisTime, calls, hash)) == Submitted(calls)
    decreases |calls|
  {
    if calls == [] {
      var r := Init(genesisTime, hash);
      assert r.chain == [r.chain[0]];
      assert Sealed(r.chain) == [] + Sealed([]);
    } else {
      var init := calls[..|calls| - 1];
      RunConserves(genesisTime, init, hash);
      match calls[|calls| - 1]
      case TransactionCall(t) =>
      case BlockCall(proof, previousHash, timestamp) =>
        SealConserves(Run(genesisTime, init, hash), proof, previousHash, timestamp, hash);
    }
  }

  /** The chain is append-only: the chain after any prefix of the calls is a prefix of the chain after all of them. */
  lemma {:induction false} RunExtends(genesisTime: real, calls: seq<Call>, k: nat, hash: Block -> string)
    requires k <= |calls|
    ensures Run(genesisTime, calls[..k], hash).chain <= Run(genesisTime, calls, hash).chain
    decreases |calls|
  {
    if k < |calls| {
      var init := calls[..|calls| - 1];
      assert init[..k] == calls[..k];
      RunExtends(genesisTime, init, k, hash);
    } else {
      assert calls[..k] == calls;
    }
  }

  /** No block call in `calls` supplies a (truthy) previous hash. */
  predicate ComputesLinks(calls: seq<Call>) {
    forall i :: 0 <= i < |calls| && calls[i].BlockCall? ==> !Supplied(calls[i].previousHash)
  }

  /** When every block after genesis takes the computed link, each block stores the digest of its predecessor. */
  lemma {:induction false} RunLinked(genesisTime: real, calls: seq<Call>, hash: Block -> string)
    requires ComputesLinks(calls)
    ensures Linked(Run(genesisTime, calls, hash).chain, hash)
    decreases |calls|
  {
    if calls != [] {
      var init := calls[..|calls| - 1];
      assert ComputesLinks(init) by {
        forall i | 0 <= i < |init| && init[i].BlockCall?
          ensures !Supplied(init[i].previousHash)
        {
          assert init[i] == calls[i];
        }
      }
      RunLinked(genesisTime, init, hash);
      var s := Run(genesisTime, init, hash);
      match calls[|calls| - 1]
      case TransactionCall(t) =>
      case BlockCall(proof, previousHash, timestamp) =>
        SealKeepsLinked(s, proof, previousHash, timestamp, hash);
    }
  }
}

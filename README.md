# simple_blockchain ledger, modelled in Dafny

This project models the in-memory ledger class `BlockChain` of `blockchain.py`.
The object holds two mutable fields:

- `chain`, an append-only list of blocks. Each block records `index`, `timestamp`,
  `transactions`, `proof` and `hash`, where `hash` is the link to the predecessor.
- `current_transactions`, the pool of pending `{sender, recipient, amount}` records.

Construction seeds the chain with a genesis block (proof 100, link `1`).
`new_block` seals the pool into a new block, resets the pool and appends the block.
`new_transaction` appends to the pool and returns the index of the block the record will land in.
`last_block` reads the tail of the chain.

The project has four modules:

- `Wrappers` (`wrappers.dfy`): the `Option` type for the optional `previous_hash` argument.
- `Ledger` (`ledger.dfy`): the data model as values. It also holds the object invariant `Valid`
  (the chain is non-empty, starts with the genesis block, and `chain[i].index == i + 1`) and the
  transitions `Init`, `Seal` and `Submit` with the properties proved about them.
- `BlockChains` (`blockchain.dfy`): the class `BlockChain` with its two fields as `seq` fields.
  Each method is proved to leave the object in the state the matching `Ledger` transition gives.
- `Traces` (`traces.dfy`): whole histories, meaning construction followed by any sequence of calls.
  It proves the invariant, conservation of transactions, append-only growth and hash-linking.

Design decisions:

- The link field holds mixed types in the source: the integer `1` for genesis and a hex string
  later. It is the datatype `Link = Sentinel(int) | Digest(string)`.
- `previous_hash or self.hash(self.chain[-1])` follows Python truthiness (`Truthy`, `Supplied`).
  `None`, `0` and `""` all fall through to hashing the last block. Sealing on an empty chain
  without a truthy link would raise `IndexError`, so `Seal` and `NewBlock` require
  `CanSeal`: a non-empty chain or a truthy link. The constructor is the only caller that
  meets it with an empty chain.
- The digest is the parameter `hash: Block -> string`. A Dafny total function is deterministic
  and depends only on the block value. The class fixes it as a `const` at construction.
- The clock reading `time()` is a `timestamp: real` parameter of the constructor and of `NewBlock`.

The source stores the link under the key `hash` (blockchain.py:28); the model's field is `link`.

## Model

| member | source | states |
|---|---|---|
| `Ledger.Init` | blockchain.py:9-14 | after construction the chain is exactly one block with index 1, no transactions, proof 100 and link `1`; the pool is empty; the invariant holds |
| `Ledger.Seal` | blockchain.py:16-35 | the chain grows by exactly one block and every earlier block is unchanged; the new block has index `len(chain)+1`, the old pool in order, the given proof and timestamp, and the supplied truthy link or else the digest of the old last block; the pool is empty; the invariant is preserved |
| `Ledger.SealConserves` | blockchain.py:26-34 | sealing moves the pool into the chain without losing or duplicating a transaction: the sealed history plus the pool is unchanged |
| `Ledger.SealKeepsLinked` | blockchain.py:28 | sealing with a computed link keeps every block pointing at the digest of its predecessor |
| `Ledger.Submit` | blockchain.py:47-51 | the pool gains exactly one record at its end and earlier entries stay in place; the chain is untouched; the held transactions gain exactly that record; the invariant is preserved |
| `Ledger.SubmitAll` | blockchain.py:47-51 | successive submissions append to the pool in submission order and leave the chain alone |
| `Ledger.NextIndex` | blockchain.py:53 | the returned `last_block['index'] + 1` equals `len(chain) + 1` under the invariant |
| `Ledger.ReceiptNamesLandingBlock` | blockchain.py:16-53 | the index `new_transaction` returns is the index of the next sealed block, and that block holds the record at the position it was queued, whatever else is queued before sealing |
| `BlockChains.BlockChain.constructor` | blockchain.py:9-14 | the object starts in the `Init` state (one genesis block, empty pool) and satisfies the invariant |
| `BlockChains.BlockChain.NewBlock` | blockchain.py:16-35 | the fields change exactly as `Seal` says, the returned block is the new last block, and the invariant is preserved |
| `BlockChains.BlockChain.NewTransaction` | blockchain.py:38-53 | the fields change exactly as `Submit` says; the result is the last block's index plus one, the value `NextIndex` gives for the state before the call, which is `len(chain) + 1` under the invariant |
| `BlockChains.BlockChain.LastBlock` | blockchain.py:71-73 | returns the tail of the chain; under the invariant its index is the chain length |
| `BlockChains.MineOneTransfer` | blockchain.py:9-53 | a client that constructs a ledger, queues A to B 5 and mines gets receipt 2 and block 2 with exactly that transfer and the digest of the genesis block as link |
| `Traces.Run` | blockchain.py:9-53 | after construction and any sequence of calls the invariant holds: the chain is non-empty, starts with genesis and is indexed 1..N |
| `Traces.RunConserves` | blockchain.py:26-51 | after any history, the sealed transactions followed by the pool are exactly the submitted ones in submission order |
| `Traces.RunExtends` | blockchain.py:34 | the chain after any prefix of a history is a prefix of the final chain (nothing in the chain is ever modified) |
| `Traces.RunLinked` | blockchain.py:28 | if no block call supplies a link, every block after genesis stores the digest of its predecessor |

## Left out

- The SHA-256 digest over `json.dumps(sort_keys=True)` (blockchain.py:67-68) is a foreign library call. It is the parameter `hash`.
- `time()` (blockchain.py:25) is a wall-clock float. It is a `real` parameter with no contract.
- `proof_of_work` (blockchain.py:56-57) has an empty body (`pass`), so there is nothing to model.
- The `uuid4` import (blockchain.py:5) is unused.
- Python aliasing is not modelled. Blocks and transaction lists are values, so a caller mutating the returned dict cannot change the stored block.
- Arguments are typed: sender and recipient are strings, amount is an integer, and `previous_hash` is an `Option<Link>`. Python accepts any value here.
- Ledger.Seal: requires a non-empty chain or a truthy previous hash. Otherwise Python raises `IndexError` at `self.chain[-1]`. That state cannot arise after construction.
- BlockChains.BlockChain.NewBlock: requires a non-empty chain or a truthy previous hash, like `Ledger.Seal`. Otherwise Python raises `IndexError`. Only the constructor calls it on an empty chain, and it supplies the link `1`.
- BlockChains.BlockChain.LastBlock: requires a non-empty chain. On an empty chain Python raises `IndexError`. That state cannot arise after construction.
- BlockChains.BlockChain.NewTransaction: requires a non-empty chain. On an empty chain Python would append the record and then raise `IndexError` in `last_block`. That state cannot arise after construction.
- Chain validation, longest-chain consensus, peer registration, the HTTP layer and concurrency do not exist in `blockchain.py`. They are not part of this model.

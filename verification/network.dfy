/**
 The chains as the automation meets them: signed transactions, the endpoints that carry them,
 receipts and committed nonces.  Everything the chain may do by itself is a `Shift`.
 */
module Network {
  import opened Wrappers
  import opened Dex

  /** A signer on one chain; nonces are counted per account. */
  datatype Account = Account(chain: string, sender: string)

  /** Signed bytes.  Hashing is injective, so a transaction also stands for its hash. */
  datatype Tx = Tx(account: Account, nonce: nat, call: CallPlan, chi: nat)

  /** A signed transaction and the endpoint it was prepared on. */
  datatype PreparedSwap = PreparedSwap(rpcUrl: string, tx: Tx)

  datatype Receipt = Receipt(success: bool, message: Option<string>)

  /**
   - `reports`: the chain id an endpoint answers with, when it answers;
   - `live`: the transactions some node may hold or may still be delivered to;
   - `committed`: the committed nonce of each account that has one;
   - `receipts`: the receipts of this database's transactions;
   - `shared`: the accounts somebody else has also committed a transaction from.
   */
  datatype Net = Net(
    reports: map<string, string>,
    live: set<Tx>,
    committed: map<Account, nat>,
    receipts: map<Tx, Receipt>,
    shared: set<Account>)

  /** The chain check made before every read and every send. */
  predicate OnChain(net: Net, swap: PreparedSwap) {
    swap.rpcUrl in net.reports && net.reports[swap.rpcUrl] == swap.tx.account.chain
  }

  predicate Consumed(net: Net, tx: Tx) {
    tx.account in net.committed && net.committed[tx.account] >= tx.nonce
  }

  /** How the network answers a broadcast. */
  datatype Reply = Accepted | Refused(message: string) | Unclear(error: string)

  /** A definitive rejection of the first send; rejections of later sends prove nothing. */
  predicate TurnedAway(reply: Reply, first: bool) {
    reply.Refused? && first
  }

  /** A send.  Unless it is turned away some node may hold the transaction from now on. */
  function Deliver(net: Net, tx: Tx, reply: Reply, first: bool): Net {
    if TurnedAway(reply, first) then net else net.(live := net.live + {tx})
  }

  /** What happens on the chains without this database's processes. */
  datatype Shift =
    | Commit(tx: Tx, receipt: Receipt)
    | Foreign(account: Account, nonce: nat)
    | Relabel(rpcUrl: string, chain: string)

  /** A held transaction commits only above the committed nonce; so does anybody else's. */
  function Move(net: Net, s: Shift): Net {
    match s
    case Commit(tx, receipt) =>
      if tx in net.live && !Consumed(net, tx) then
        net.(committed := net.committed[tx.account := tx.nonce], receipts := net.receipts[tx := receipt])
      else net
    case Foreign(account, nonce) =>
      if account in net.committed && nonce <= net.committed[account] then net
      else net.(committed := net.committed[account := nonce], shared := net.shared + {account})
    case Relabel(rpcUrl, chain) => net.(reports := net.reports[rpcUrl := chain])
  }
}

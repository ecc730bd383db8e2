// The world-state gateway, an external collaborator of the system contract and the adapter:
// account existence and creation, nonce lookup and commit, with a log of the
// mutating calls so that callers' effects can be stated.
module WorldState {
  import opened Primitives

  datatype Account = Account(nonce: nat, balance: nat)

  /** The protocol ruleset a commit is made under. */
  datatype ReleaseSpec = Frontier | Homestead | Byzantium | Istanbul | London

  /** A mutating call made on the state provider. */
  datatype StateChange = AccountCreated(address: Address, balance: nat) | Committed(spec: ReleaseSpec)

  /** The provider's whole observable state as a value. */
  datatype StateSnapshot = StateSnapshot(
    accounts: map<Address, Account>,
    committed: map<Address, Account>,
    changes: seq<StateChange>)

  class StateProvider {
    /** The current accounts, including changes not yet committed. */
    var accounts: map<Address, Account>
    /** The accounts as of the last commit. */
    var committed: map<Address, Account>
    /** Every CreateAccount and Commit call, in order. */
    var changes: seq<StateChange>

    constructor (initial: map<Address, Account>)
      ensures accounts == initial && committed == initial && changes == []
    {
      accounts, committed, changes := initial, initial, [];
    }

    function Snapshot(): StateSnapshot
      reads this
    {
      StateSnapshot(accounts, committed, changes)
    }

    predicate AccountExists(address: Address)
      reads this
    {
      address in accounts
    }

    /** The nonce of the account, zero for an absent account. */
    function GetNonce(address: Address): nat
      reads this
    {
      if address in accounts then accounts[address].nonce else 0
    }

    method CreateAccount(address: Address, balance: nat)
      modifies this
      ensures accounts == old(accounts)[address := Account(0, balance)]
      ensures committed == old(committed)
      ensures changes == old(changes) + [AccountCreated(address, balance)]
    {
      accounts := accounts[address := Account(0, balance)];
      changes := changes + [AccountCreated(address, balance)];
    }

    method Commit(spec: ReleaseSpec)
      modifies this
      ensures accounts == old(accounts) && committed == old(accounts)
      ensures changes == old(changes) + [Committed(spec)]
    {
      committed := accounts;
      changes := changes + [Committed(spec)];
    }
  }
}

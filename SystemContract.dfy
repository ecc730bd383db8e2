// AuRa system contracts: lazily creating the reserved system account, and
// building transactions whose sender is the system user.
module AuRaContracts {
  import opened Primitives
  import opened WorldState
  import opened Transactions

  /** The account that EnsureSystemAccount creates: zero balance (and zero nonce). */
  const SystemAccount: Account := Account(0, 0)

  /** The calls EnsureSystemAccount adds to the state provider's log when it creates the account. */
  const SystemAccountCreation: seq<StateChange> := [AccountCreated(SystemUser, 0), Committed(Homestead)]

  /** The state after EnsureSystemAccount runs on state `s`. */
  function EnsureSystemAccountEffect(s: StateSnapshot): StateSnapshot
  {
    if SystemUser in s.accounts then s
    else StateSnapshot(
      s.accounts[SystemUser := SystemAccount],
      s.accounts[SystemUser := SystemAccount],
      s.changes + SystemAccountCreation)
  }

  /** How many times the account at `address` was created in `log`. */
  function CreationsOf(address: Address, log: seq<StateChange>): nat
  {
    if log == [] then 0
    else (if log[0].AccountCreated? && log[0].address == address then 1 else 0) + CreationsOf(address, log[1..])
  }

  /** How many commits `log` holds. */
  function Commits(log: seq<StateChange>): nat
  {
    if log == [] then 0
    else (if log[0].Committed? then 1 else 0) + Commits(log[1..])
  }

  lemma {:induction false} CountsOfConcatenation(address: Address, a: seq<StateChange>, b: seq<StateChange>)
    ensures CreationsOf(address, a + b) == CreationsOf(address, a) + CreationsOf(address, b)
    ensures Commits(a + b) == Commits(a) + Commits(b)
  {
    if a == [] {
      assert a + b == b;
    } else {
      assert (a + b)[1..] == a[1..] + b;
      CountsOfConcatenation(address, a[1..], b);
    }
  }

  /** After the call the system account exists; an account that already existed is left as it was. */
  lemma SystemAccountExistsAfter(s: StateSnapshot)
    ensures SystemUser in EnsureSystemAccountEffect(s).accounts
    ensures SystemUser in s.accounts ==> EnsureSystemAccountEffect(s) == s
    ensures SystemUser !in s.accounts ==>
      EnsureSystemAccountEffect(s).accounts == s.accounts[SystemUser := Account(0, 0)] &&
      EnsureSystemAccountEffect(s).committed == EnsureSystemAccountEffect(s).accounts
  {
  }

  /** The only calls ever added are a creation followed by a Homestead commit, or none at all. */
  lemma CommitOnlyAfterCreate(s: StateSnapshot)
    ensures |s.changes| <= |EnsureSystemAccountEffect(s).changes|
    ensures EnsureSystemAccountEffect(s).changes[..|s.changes|] == s.changes
    ensures EnsureSystemAccountEffect(s).changes[|s.changes|..] ==
      (if SystemUser in s.accounts then [] else [AccountCreated(SystemUser, 0), Committed(Homestead)])
  {
  }

  /** Calling twice leaves the same state as calling once. */
  lemma EnsureSystemAccountIdempotent(s: StateSnapshot)
    ensures EnsureSystemAccountEffect(EnsureSystemAccountEffect(s)) == EnsureSystemAccountEffect(s)
  {
  }

  /** Two consecutive calls create the system account and commit at most once, and exactly once when it was absent. */
  lemma TwoCallsCreateOnce(s: StateSnapshot)
    ensures var twice := EnsureSystemAccountEffect(EnsureSystemAccountEffect(s)).changes;
      CreationsOf(SystemUser, twice) == CreationsOf(SystemUser, s.changes) + (if SystemUser in s.accounts then 0 else 1) &&
      Commits(twice) == Commits(s.changes) + (if SystemUser in s.accounts then 0 else 1)
  {
    EnsureSystemAccountIdempotent(s);
    if SystemUser !in s.accounts {
      CountsOfConcatenation(SystemUser, s.changes, SystemAccountCreation);
      var tail := SystemAccountCreation[1..];
      assert tail == [Committed(Homestead)] && tail[1..] == [];
      assert CreationsOf(SystemUser, tail) == 0 && Commits(tail) == 1;
      assert CreationsOf(SystemUser, SystemAccountCreation) == 1;
      assert Commits(SystemAccountCreation) == 1;
    }
  }

  class SystemContract {
    const contractAddress: Address

    constructor (contractAddress: Address)
      ensures this.contractAddress == contractAddress
    {
      this.contractAddress := contractAddress;
    }

    /** Creates the system account with zero balance and commits under Homestead, unless it already exists. */
    method EnsureSystemAccount(stateProvider: StateProvider)
      modifies stateProvider
      ensures stateProvider.Snapshot() == EnsureSystemAccountEffect(old(stateProvider.Snapshot()))
      ensures old(stateProvider.AccountExists(SystemUser)) ==> unchanged(stateProvider)
    {
      if !stateProvider.AccountExists(SystemUser) {
        stateProvider.CreateAccount(SystemUser, 0);
        stateProvider.Commit(Homestead);
      }
    }

    /**
     * Builds a system transaction by handing the payload, the system user as
     * sender, the gas limit and the nonce to the base contract's transaction
     * generator, which is not part of this model and is a parameter here.
     */
    function GenerateSystemTransaction(
      generateTransaction: (seq<byte>, Address, int, Option<nat>) -> Transaction,
      transactionData: seq<byte>,
      gasLimit: int := LongMaxValue,
      nonce: Option<nat> := None): Transaction
    {
      generateTransaction(transactionData, SystemUser, gasLimit, nonce)
    }
  }

  /** Without explicit arguments the gas limit is `long.MaxValue` and the nonce is null. */
  lemma GenerateSystemTransactionDefaults(
    c: SystemContract,
    generateTransaction: (seq<byte>, Address, int, Option<nat>) -> Transaction,
    transactionData: seq<byte>)
    ensures c.GenerateSystemTransaction(generateTransaction, transactionData)
      == generateTransaction(transactionData, SystemUser, LongMaxValue, None)
  {
  }

  /** When the generator uses the sender it is given, the generated transaction is classified as system. */
  lemma GeneratedTransactionIsSystem(
    c: SystemContract,
    generateTransaction: (seq<byte>, Address, int, Option<nat>) -> Transaction,
    transactionData: seq<byte>, gasLimit: int, nonce: Option<nat>)
    requires generateTransaction(transactionData, SystemUser, gasLimit, nonce).senderAddress == Some(SystemUser)
    ensures c.GenerateSystemTransaction(generateTransaction, transactionData, gasLimit, nonce).IsSystem()
  {
  }
}

// The transaction entity: a mutable property bag whose system flag is fixed
// when the object is constructed.
module Transactions {
  import opened Primitives

  /** The intrinsic gas charged for every transaction. */
  const BaseTxGasCost: int := 21000

  datatype Signature = Signature(r: seq<byte>, s: seq<byte>, v: nat)

  /** The values of a transaction's fields at one moment, as handed to the EVM. */
  datatype TxFields = TxFields(
    nonce: nat,
    gasPrice: nat,
    gasLimit: int,
    to: Option<Address>,
    value: nat,
    data: Option<seq<byte>>,
    senderAddress: Option<Address>,
    signature: Option<Signature>,
    hash: Option<Hash>,
    isSystem: bool)

  class Transaction {
    /** Set once by the constructor (`readonly` in the source). */
    const isSystemFlag: bool

    var nonce: nat
    var gasPrice: nat
    var gasLimit: int
    var to: Option<Address>
    var value: nat
    var data: Option<seq<byte>>
    var senderAddress: Option<Address>
    var signature: Option<Signature>
    var hash: Option<Hash>
    var deliveredBy: Option<seq<byte>>
    var timestamp: nat

    /** The default constructor: every property null or zero, not flagged as system. */
    constructor ()
      ensures !isSystemFlag && !IsSystem()
      ensures nonce == 0 && gasPrice == 0 && gasLimit == 0 && value == 0 && timestamp == 0
      ensures to == None && data == None && senderAddress == None && signature == None
      ensures hash == None && deliveredBy == None
    {
      isSystemFlag := false;
      nonce, gasPrice, gasLimit, value, timestamp := 0, 0, 0, 0, 0;
      to, data, senderAddress, signature, hash, deliveredBy := None, None, None, None, None, None;
    }

    /** The constructor used for genesis allocations, which may be flagged as system. */
    constructor WithSystemFlag(isSystem: bool)
      ensures isSystemFlag == isSystem && (IsSystem() <==> isSystem)
      ensures nonce == 0 && gasPrice == 0 && gasLimit == 0 && value == 0 && timestamp == 0
      ensures to == None && data == None && senderAddress == None && signature == None
      ensures hash == None && deliveredBy == None
    {
      isSystemFlag := isSystem;
      nonce, gasPrice, gasLimit, value, timestamp := 0, 0, 0, 0, 0;
      to, data, senderAddress, signature, hash, deliveredBy := None, None, None, None, None, None;
    }

    predicate IsSigned()
      reads this
    {
      signature.Some?
    }

    predicate IsContractCreation()
      reads this
    {
      to.None?
    }

    predicate IsMessageCall()
      reads this
    {
      to.Some?
    }

    /** A transaction is system if its sender is the system user OR it was constructed as system. */
    predicate IsSystem()
      reads this
    {
      senderAddress == Some(SystemUser) || isSystemFlag
    }

    /** The transaction's properties as a value, as handed to the transaction processor. */
    function Fields(): TxFields
      reads this
    {
      TxFields(nonce, gasPrice, gasLimit, to, value, data, senderAddress, signature, hash, IsSystem())
    }

    /** The `SenderAddress` setter; it is the only way `IsSystem()` can change. */
    method SetSenderAddress(address: Option<Address>)
      modifies this`senderAddress
      ensures senderAddress == address
      ensures IsSystem() <==> (address == Some(SystemUser) || isSystemFlag)
      ensures isSystemFlag ==> IsSystem()
    {
      senderAddress := address;
    }
  }

  /** Contract creation and message call are complementary: exactly one holds. */
  lemma CreationOrCall(t: Transaction)
    ensures t.IsContractCreation() <==> !t.IsMessageCall()
    ensures t.IsContractCreation() <==> t.to == None
    ensures t.IsSigned() <==> t.signature != None
  {
  }

  /** Without the constructor flag, being system is exactly having the system sender. */
  lemma UnflaggedSystemIffSystemSender(t: Transaction)
    requires !t.isSystemFlag
    ensures t.IsSystem() <==> t.senderAddress == Some(SystemUser)
  {
  }

  /** A transaction constructed as system is system whatever its sender. */
  lemma FlaggedIsAlwaysSystem(t: Transaction)
    requires t.isSystemFlag
    ensures t.IsSystem()
  {
  }

  /** Witness that `IsSystem()` is not "sender is the system user": a flagged transaction with an ordinary sender. */
  method FlaggedTransactionWithOrdinarySender(sender: Address) returns (t: Transaction)
    requires sender != SystemUser
    ensures t.IsSystem() && t.senderAddress == Some(sender) && t.senderAddress != Some(SystemUser)
  {
    t := new Transaction.WithSystemFlag(true);
    t.SetSenderAddress(Some(sender));
  }
}

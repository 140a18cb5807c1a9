/** Identifiers, instants and digests shared by the three stores. */
module Values {

  // UUIDs, addresses, Stellar transaction hashes and HSK identifiers are only ever
  // compared for equality, so natural numbers stand for them.
  type Uuid = nat
  type Address = nat
  type StellarHash = nat
  type LoanKey = nat
  type HskTx = nat
  type Instant = int

  /** Math.round over the reals: to the nearest integer, halves up. */
  function Round(x: real): int {
    (x + 0.5).Floor
  }

  type uint16 = n: nat | n < 0x1_0000 witness 0

  /** Keccak digests, one constructor per kind of preimage: equal digests have equal preimages. */
  datatype Digest =
    | PollarReceipt(intentId: Uuid, hskLoanId: LoanKey, number: nat, sender: Address, recipient: Address,
                    amount: nat, issuer: Address, txHash: StellarHash)
    | CashReceipt(hskLoanId: LoanKey, number: nat, amount: nat, otp: nat, timestamp: Instant)
    | ExternalHash(txHash: StellarHash)
    | OtherHash(value: nat)
    | ZeroHash
}

/** The host's address and key types, as far as the contract uses them. */
module Types {

  newtype byte = x: int | 0 <= x < 256

  type Bytes = seq<byte>

  /** `casper_types::Key`, restricted to its two variants that name a party:
      an account (by account hash) and a contract package (by hash). The two
      variants are different keys even when they carry the same bytes. */
  datatype Key = Account(accountHash: Bytes) | Hash(hashAddr: Bytes)

  /** The blacklister is stored as a public key, not as a `Key`. */
  datatype PublicKey = PublicKey(bytes: Bytes)
}

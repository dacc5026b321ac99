/** The fixed sizes the program reserves for its accounts. */
module Layout {

  /** Capacity reserved for each string and for the instruction data. */
  const MAX_DATA_LEN: nat := 100
  /** Capacity reserved for the option list and for the voter list. */
  const MAX_APPROVERS: nat := 50
  /** Bytes of the discriminator that precedes every account's data. */
  const DISCRIMINATOR_LEN: nat := 8
  /** Bytes of a public key. */
  const PUBKEY_LEN: nat := 32
  /** Bytes of the length prefix of a string or vector. */
  const PREFIX_LEN: nat := 4

  /** `Proposal::LEN`: the bytes reserved for a proposal's fields, summed
      field by field as the program does (two keys, two strings, four bytes
      for the program id, the instruction data, the options, the voters, two
      timestamps, the executed flag and the winner index). */
  function ProposalLen(): (n: nat)
    ensures n == 7202
  {
    PUBKEY_LEN
    + PUBKEY_LEN
    + PREFIX_LEN + MAX_DATA_LEN
    + PREFIX_LEN + MAX_DATA_LEN
    + 4
    + 100
    + PREFIX_LEN + MAX_APPROVERS * (PREFIX_LEN + MAX_DATA_LEN)
    + PREFIX_LEN + PUBKEY_LEN * MAX_APPROVERS
    + 8
    + 8
    + 1
    + 1
  }

  /** The space allocated for a new proposal account: the discriminator
      followed by `Proposal::LEN` bytes. */
  function ProposalSpace(): (n: nat)
    ensures n == 7210
  {
    DISCRIMINATOR_LEN + ProposalLen()
  }
}

/** Values shared by every part of the governance program: the fixed-width
    integers it stores, its error codes, and the proposal record as it sits in
    its ledger account. */
module DaoTypes {

  /** A 32-byte public key, represented by its numeric value. */
  type Pubkey = nat

  const U8_MAX: int := 0xFF
  const U64_MAX: int := 0xFFFF_FFFF_FFFF_FFFF
  const I64_MIN: int := -0x8000_0000_0000_0000
  const I64_MAX: int := 0x7FFF_FFFF_FFFF_FFFF

  type u8 = x: int | 0 <= x <= U8_MAX
  type u64 = x: int | 0 <= x <= U64_MAX
  type i64 = x: int | I64_MIN <= x <= I64_MAX

  /** Length of the voting window, in seconds of ledger time. */
  const VOTING_PERIOD: int := 100

  /** The program's `ErrorCode` enum, followed by the two ways a handler can
      fail that do not come from it: a panic on a missing remaining account,
      and an error returned by the invoked program. */
  datatype Error =
    | NotEnoughMembers
    | Unauthorized
    | AlreadyVoted
    | InvalidOption
    | VotingStillActive
    | ProposalNotFinalized
    | AlreadyFinalized
    | AlreadyExecuted
    | MissingRemainingAccount
    | InvokeFailed

  /** The outcome of one instruction handler. */
  datatype Result<T> = Ok(value: T) | Err(error: Error)

  datatype Option<T> = None | Some(value: T)

  /** One option of a proposal: its label and its tally. */
  datatype ProposalOption = ProposalOption(text: string, voteCount: u64)

  /** The contents of a proposal account. */
  datatype ProposalRecord = ProposalRecord(
    dao: Pubkey,
    proposer: Pubkey,
    title: string,
    description: string,
    programId: Pubkey,
    data: seq<u8>,
    options: seq<ProposalOption>,
    voters: seq<Pubkey>,
    startTime: i64,
    endTime: i64,
    executed: bool,
    winnerIndex: Option<u8>)

  /** A freshly allocated proposal account: every byte zero, so every key is
      the zero key, every string and vector empty, every number 0, `executed`
      false and `winner_index` None. */
  function ZeroProposal(): (p: ProposalRecord)
    ensures p.voters == [] && p.options == [] && p.winnerIndex == None && !p.executed
  {
    ProposalRecord(0, 0, "", "", 0, [], [], [], 0, 0, false, None)
  }

  /** `u64::saturating_add(1)`. */
  function SaturatingInc(x: u64): (r: u64)
    ensures x < U64_MAX ==> r == x + 1
    ensures x == U64_MAX ==> r == x
  {
    if x == U64_MAX then x else x + 1
  }

  /** Sum of the tallies of a list of options, as an unbounded integer. */
  function TallySum(options: seq<ProposalOption>): nat
  {
    if options == [] then 0 else TallySum(options[..|options| - 1]) + options[|options| - 1].voteCount
  }

  /** No key occurs twice in `keys`. */
  predicate NoDuplicates(keys: seq<Pubkey>)
  {
    forall i, j :: 0 <= i < j < |keys| ==> keys[i] != keys[j]
  }
}

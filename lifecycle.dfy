/** What each instruction handler does to the account it changes, written as
    a function from the account's contents before the transaction to its
    outcome. A failed handler changes nothing: the ledger discards the whole
    transaction. */
module Lifecycle {
  import opened DaoTypes
  import opened Tally

  /** Number of remaining accounts the execution step passes, by position, to
      the invoked program. */
  const CPI_ACCOUNTS: nat := 9

  /** The instruction the execution step hands to the invoked program. */
  datatype Instruction = Instruction(programId: Pubkey, accounts: seq<Pubkey>, data: seq<u8>)

  /** The outcome of the execution step together with the instructions it
      dispatched to other programs. */
  datatype Execution = Execution(result: Result<ProposalRecord>, calls: seq<Instruction>)

  /** The account as the ledger keeps it after a handler: the new contents on
      success, the old ones on failure. */
  function Commit(before: ProposalRecord, r: Result<ProposalRecord>): ProposalRecord
  {
    if r.Ok? then r.value else before
  }

  /** The handler's own return value, without the new contents. */
  function StatusOf<T>(r: Result<T>): Result<()>
  {
    if r.Ok? then Ok(()) else Err(r.error)
  }

  /** `create_dao`: at least two keys, stored as given. */
  function CreateDao(members: seq<Pubkey>): (r: Result<seq<Pubkey>>)
    ensures r.Err? <==> |members| < 2
    ensures r.Err? ==> r.error == NotEnoughMembers
    ensures r.Ok? ==> r.value == members
  {
    if |members| < 2 then Err(NotEnoughMembers) else Ok(members)
  }

  /** `create_proposal` on the freshly allocated `account`. Only the signer is
      checked; the organization key and the proposer recorded are whatever
      the caller passes. */
  function CreateProposal(
    account: ProposalRecord, members: seq<Pubkey>, signer: Pubkey,
    daoKey: Pubkey, title: string, description: string, programId: Pubkey,
    data: seq<u8>, options: seq<ProposalOption>, proposer: Pubkey, now: i64
  ): (r: Result<ProposalRecord>)
    requires now <= I64_MAX - VOTING_PERIOD
    ensures r.Err? <==> signer !in members
    ensures r.Err? ==> r.error == Unauthorized
    ensures r.Ok? ==>
      && r.value.startTime == now
      && r.value.endTime == r.value.startTime + VOTING_PERIOD
      && !r.value.executed
      && r.value.dao == daoKey && r.value.proposer == proposer
      && r.value.title == title && r.value.description == description
      && r.value.programId == programId && r.value.data == data
      && r.value.options == options
      && r.value.voters == account.voters && r.value.winnerIndex == account.winnerIndex
  {
    if signer !in members then Err(Unauthorized)
    else
      Ok(account.(
        dao := daoKey, title := title, description := description,
        programId := programId, data := data,
        startTime := now, endTime := now + VOTING_PERIOD, executed := false,
        options := options, proposer := proposer))
  }

  /** `q` is `p` after `voter` cast a ballot for option `idx`: the voter is
      appended, that option's tally rises by one unless it is already at the
      largest `u64`, and nothing else differs. */
  predicate BallotRecorded(p: ProposalRecord, q: ProposalRecord, voter: Pubkey, idx: nat)
  {
    && idx < |p.options|
    && q.voters == p.voters + [voter]
    && |q.options| == |p.options|
    && q.options[idx].text == p.options[idx].text
    && q.options[idx].voteCount == (if p.options[idx].voteCount < U64_MAX then p.options[idx].voteCount + 1 else U64_MAX)
    && (forall j :: 0 <= j < |p.options| && j != idx ==> q.options[j] == p.options[j])
    && q.(voters := p.voters, options := p.options) == p
  }

  /** `vote`: membership first, then the double-vote check, then the option
      index; there is no check of the voting window. */
  function Vote(p: ProposalRecord, members: seq<Pubkey>, voter: Pubkey, optionIndex: u8): (r: Result<ProposalRecord>)
    ensures voter !in members ==> r == Err(Unauthorized)
    ensures voter in members && voter in p.voters ==> r == Err(AlreadyVoted)
    ensures voter in members && voter !in p.voters && optionIndex >= |p.options| ==> r == Err(InvalidOption)
    ensures r.Ok? <==> voter in members && voter !in p.voters && optionIndex < |p.options|
    ensures r.Ok? ==> BallotRecorded(p, r.value, voter, optionIndex)
  {
    if voter !in members then Err(Unauthorized)
    else if voter in p.voters then Err(AlreadyVoted)
    else if optionIndex >= |p.options| then Err(InvalidOption)
    else
      var o := p.options[optionIndex];
      Ok(p.(voters := p.voters + [voter],
            options := p.options[optionIndex := o.(voteCount := SaturatingInc(o.voteCount))]))
  }

  /** `vote_count`, the finalize step: only after the window has closed, and
      only while the proposal is not executed. It does not test whether a
      winner is already stored, so a second call overwrites it. */
  function VoteCount(p: ProposalRecord, now: i64): (r: Result<ProposalRecord>)
    ensures now <= p.endTime ==> r == Err(VotingStillActive)
    ensures now > p.endTime && p.executed ==> r == Err(AlreadyFinalized)
    ensures r.Ok? <==> now > p.endTime && !p.executed
    ensures r.Ok? ==> r.value.winnerIndex.Some? && r.value.(winnerIndex := p.winnerIndex) == p
    ensures r.Ok? ==> r.value.winnerIndex == Some(Winner(p.options))
    ensures r.Ok? && |p.options| <= 256 ==> IsLeader(p.options, r.value.winnerIndex.value)
  {
    if now <= p.endTime then Err(VotingStillActive)
    else if p.executed then Err(AlreadyFinalized)
    else Ok(p.(winnerIndex := Some(Winner(p.options))))
  }

  /** `execute_proposal`: a winner of 1 only marks the proposal executed; any
      other winner dispatches one instruction built from the stored program
      id and data and the first nine remaining accounts, and the proposal is
      marked executed only when that instruction succeeds. */
  function ExecuteProposal(p: ProposalRecord, remaining: seq<Pubkey>, invoke: Instruction -> bool): (x: Execution)
    ensures p.winnerIndex.None? ==> x == Execution(Err(ProposalNotFinalized), [])
    ensures p.winnerIndex.Some? && p.executed ==> x == Execution(Err(AlreadyExecuted), [])
    ensures p.winnerIndex == Some(1) && !p.executed ==> x.calls == [] && x.result.Ok?
    ensures p.winnerIndex.Some? && p.winnerIndex != Some(1) && !p.executed && |remaining| < CPI_ACCOUNTS ==>
      x == Execution(Err(MissingRemainingAccount), [])
    ensures p.winnerIndex.Some? && p.winnerIndex != Some(1) && !p.executed && |remaining| >= CPI_ACCOUNTS ==>
      && x.calls == [Instruction(p.programId, remaining[..CPI_ACCOUNTS], p.data)]
      && (x.result.Ok? <==> invoke(x.calls[0]))
      && (x.result.Err? ==> x.result.error == InvokeFailed)
    ensures x.result.Ok? ==> !p.executed && x.result.value == p.(executed := true)
  {
    if p.winnerIndex.None? then Execution(Err(ProposalNotFinalized), [])
    else if p.executed then Execution(Err(AlreadyExecuted), [])
    else if p.winnerIndex.value == 1 then Execution(Ok(p.(executed := true)), [])
    else if |remaining| < CPI_ACCOUNTS then Execution(Err(MissingRemainingAccount), [])
    else
      var ix := Instruction(p.programId, remaining[..CPI_ACCOUNTS], p.data);
      if invoke(ix) then Execution(Ok(p.(executed := true)), [ix])
      else Execution(Err(InvokeFailed), [ix])
  }
}

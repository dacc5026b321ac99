# Simple DAO: proposal lifecycle model

A Dafny model of the on-chain governance program `simple_dao`, a Solana
program written with Anchor. An organization's membership account holds a
list of member keys. Members create proposals that offer numbered options.
Each member votes once. After a voting window of 100 seconds, anyone can
finalize the proposal, which stores the index of the winning option. A
winner other than option 1 ("No") then lets anyone execute the proposal
once: execution dispatches one instruction to another program.

Files:

- `dao_types.dfy` (module `DaoTypes`): fixed-width integers (`u8`, `u64`,
  `i64`), the error codes, options and the proposal record, the zeroed
  account, and saturating increment.
- `layout.dfy` (module `Layout`): `Proposal::LEN` and the space allocated
  for a proposal account.
- `tally.dfy` (module `Tally`): the finalize scan (`FindWinner`, a loop),
  proved against an independent definition of the winner (`Leader`: the
  first index holding the maximal tally).
- `lifecycle.dfy` (module `Lifecycle`): each instruction handler as a
  function from the account's old contents to its outcome.
- `accounts.dfy` (module `Accounts`): the accounts as classes (`DaoInfo`,
  `Proposal`). The handlers are methods that update fields in place. Each
  method's contract ties its return value and new state to the matching
  `Lifecycle` function.
- `traces.dfy` (module `Traces`): properties of sequences of votes,
  finalizations and executions against one proposal, plus the two
  end-to-end scenarios. Each ballot in a sequence carries the member list
  of the membership account its transaction presents.

Behaviour kept as the program has it:

- `create_dao` stores the member list verbatim, duplicates included.
- `create_proposal` checks only that the signer is a member. The
  organization key and the proposer it records come from the arguments and
  are not checked. Caller-supplied tallies are copied without being reset.
  `voters` and `winner_index` are never written; they keep the values of the
  zeroed account (empty, `None`).
- `vote` and `create_proposal` check membership against whichever
  membership account the transaction presents. Nothing ties that account
  to the organization key stored in the proposal, and anyone can create a
  membership account. So the voters of a proposal are members of some
  presented account, not necessarily of the proposal's organization
  (`Traces.ForeignRegistryBallot`). The model keeps voters within one
  member list only under the hypothesis that every ballot presents that
  list (`Traces.RunKeepsVotersAmong`). The program does not enforce this
  hypothesis.
- `vote` has no time check: ballots are accepted before, during and after
  the window. Its option index is a `u8`, so options past index 255 cannot
  receive votes.
- `vote_count` guards with `executed`, not with `winner_index`. Until the
  proposal is executed, a second finalize recomputes the winner and
  overwrites it, and the result can change, because late votes are
  accepted (`Traces.FinalizeCanBeOverwritten`). Once the proposal is
  executed the stored winner is final: finalize then fails, `vote` never
  writes the winner, and execution fails too (`Traces.RunGrows`).
- The winner's index is cast with `i as u8`, which keeps its low eight
  bits. The model stores `Leader % 256`. With at most 256 options this is
  the leader itself.
- A panic aborts the transaction. A failed invocation returns an error
  that aborts the transaction. In both cases the account is left as it was.
  The model writes these two outcomes as the extra errors
  `MissingRemainingAccount` and `InvokeFailed`.

Parameters and abstractions:

- The ledger clock (`Clock::get()`) is the parameter `now`.
- The invoked program is a parameter `invoke: Instruction -> bool`. It
  answers whether the instruction built from the stored program id, the
  stored data and the first nine remaining account keys succeeded.
- `ExecuteProposal` returns the list of dispatched instructions. This makes
  "no call" and "exactly one call" statable.
- Public keys are natural numbers.

## Model

| member | source | states |
|---|---|---|
| `DaoTypes.ZeroProposal` | programs/simple_dao/src/lib.rs:172-177 | a freshly allocated proposal account has no voters, no options, no winner and is not executed |
| `DaoTypes.SaturatingInc` | programs/simple_dao/src/lib.rs:80 | a tally below `u64::MAX` rises by one; at `u64::MAX` it stays |
| `Layout.ProposalLen` | programs/simple_dao/src/lib.rs:236-247 | the field-by-field reservation of `Proposal::LEN` totals 7202 bytes |
| `Layout.ProposalSpace` | programs/simple_dao/src/lib.rs:175 | a proposal account is allocated 8 + `Proposal::LEN` = 7210 bytes |
| `Tally.MaxTally` | programs/simple_dao/src/lib.rs:103-108 | no option's tally exceeds the result, and a nonzero result is some option's tally |
| `Tally.FirstIndexOf` | programs/simple_dao/src/lib.rs:103-108 | the result is the first index carrying the given tally, or the length when none does |
| `Tally.Leader` | programs/simple_dao/src/lib.rs:94-108 | the winner is 0 when no option has a vote; otherwise its tally is at least every other tally and strictly above every earlier one (ties go to the lowest index) |
| `Tally.LeaderUnique` | programs/simple_dao/src/lib.rs:103-108 | that winner rule picks exactly one index |
| `Tally.Winner` | programs/simple_dao/src/lib.rs:106 | the stored index is the leader's index cast to `u8`; with at most 256 options it is the leader |
| `Tally.FindWinner` | programs/simple_dao/src/lib.rs:94-108 | the strict-greater scan from (max 0, winner 0) returns exactly the cast leader |
| `Tally.WinnerExamples` | programs/simple_dao/src/lib.rs:103-108 | tallies [3,3,1] give 0, [0,0,0] give 0, [1,5,5] give 1 |
| `Lifecycle.CreateDao` | programs/simple_dao/src/lib.rs:14-21 | fails with `NotEnoughMembers` exactly when fewer than two keys are given; otherwise the list is stored unchanged |
| `Lifecycle.CreateProposal` | programs/simple_dao/src/lib.rs:23-56 | fails with `Unauthorized` exactly when the signer is not a member; on success the window is [now, now + 100], `executed` is false, every argument is copied verbatim (tallies included), and `voters` and `winner_index` keep the account's values |
| `Lifecycle.Vote` | programs/simple_dao/src/lib.rs:58-83 | the checks run in the order membership (`Unauthorized`), double vote (`AlreadyVoted`), index bound (`InvalidOption`); success exactly when all pass, and then the voter is appended once, only the chosen option's tally rises, by one, saturating, and nothing else changes |
| `Lifecycle.VoteCount` | programs/simple_dao/src/lib.rs:85-113 | fails with `VotingStillActive` unless `now > end_time`, then with `AlreadyFinalized` if executed; on success only `winner_index` changes, to `Some` of the leader's index cast to `u8` for any number of options, which with at most 256 options is the leader |
| `Lifecycle.ExecuteProposal` | programs/simple_dao/src/lib.rs:115-153 | `ProposalNotFinalized` without a winner, then `AlreadyExecuted`; a winner of 1 sets `executed` with no call; any other winner dispatches exactly one instruction (program id, first nine accounts, data) and sets `executed` exactly when it succeeds; fewer than nine accounts dispatch nothing |
| `Accounts.DaoInfo.CreateDao` | programs/simple_dao/src/lib.rs:14-21 | the handler's result and the stored member list are those of `Lifecycle.CreateDao` |
| `Accounts.DaoInfo.constructor` | programs/simple_dao/src/lib.rs:158-163 | allocation yields an empty member list |
| `Accounts.Proposal.constructor` | programs/simple_dao/src/lib.rs:172-177 | allocation yields the zeroed proposal |
| `Accounts.Proposal.CreateProposal` | programs/simple_dao/src/lib.rs:23-56 | the in-place field writes produce `Lifecycle.CreateProposal`'s record, or leave the account unchanged on failure |
| `Accounts.Proposal.Vote` | programs/simple_dao/src/lib.rs:58-83 | the push and tally update in place produce `Lifecycle.Vote`'s record, or leave the account unchanged on failure |
| `Accounts.Proposal.VoteCount` | programs/simple_dao/src/lib.rs:85-113 | the scan and store produce `Lifecycle.VoteCount`'s record, or leave the account unchanged on failure |
| `Accounts.Proposal.ExecuteProposal` | programs/simple_dao/src/lib.rs:115-153 | the result, the dispatched instructions and the new `executed` flag are those of `Lifecycle.ExecuteProposal` |
| `Traces.CreatedIsSound` | programs/simple_dao/src/lib.rs:36-53 | a proposal created by a member from a zeroed account has no voters, no winner, `start_time < end_time`, and satisfies the lifecycle invariant |
| `Traces.StepKeepsSound` | programs/simple_dao/src/lib.rs:70-80 | one transaction, whatever membership account it presents, keeps the invariant: no key is a voter twice, and a proposal is executed only once a winner is stored |
| `Traces.RunKeepsSound` | programs/simple_dao/src/lib.rs:58-153 | any sequence of votes, finalizations and executions keeps that invariant, whatever membership accounts its ballots present |
| `Traces.RunKeepsVotersAmong` | programs/simple_dao/src/lib.rs:64-67 | if the voters are within a member list and every ballot presents that same list, the voters stay within it (the program does not require ballots to present the same list) |
| `Traces.VotersFromBallots` | programs/simple_dao/src/lib.rs:64-80 | in any sequence of transactions, every key that becomes a voter cast a ballot in it whose presented membership account listed that key |
| `Traces.ForeignRegistryBallot` | programs/simple_dao/src/lib.rs:64-67 | a ballot presenting another membership account that lists the voter is accepted, so a key outside the organization becomes a voter |
| `Traces.OnlyExecuteCalls` | programs/simple_dao/src/lib.rs:58-113 | votes and finalizations dispatch no instruction to another program |
| `Traces.StepGrows` | programs/simple_dao/src/lib.rs:58-153 | one transaction only appends voters, never lowers a tally or changes a label, never clears a winner or `executed`, never changes the winner of an executed proposal, and leaves the organization key, proposer, content and window alone |
| `Traces.RunGrows` | programs/simple_dao/src/lib.rs:58-153 | the same holds across any sequence of transactions; in particular `executed` never returns to false, and once a proposal is executed its stored winner is final |
| `Traces.TallySumUpdate` | programs/simple_dao/src/lib.rs:80 | replacing one option changes the total of the tallies by exactly the change in that option's tally |
| `Traces.StepTallyGrowth` | programs/simple_dao/src/lib.rs:79-80 | one transaction never lowers the total of the tallies and raises it by at most the number of voters it adds |
| `Traces.RunTallyGrowth` | programs/simple_dao/src/lib.rs:58-113 | across any sequence of transactions the total of the tallies grows by at most one per new voter |
| `Traces.AtMostOneEffect` | programs/simple_dao/src/lib.rs:118-150 | across any sequence of transactions at most one dispatched instruction succeeds, and none once the proposal is executed |
| `Traces.SecondVoteRejected` | programs/simple_dao/src/lib.rs:70-73 | after a successful vote the same voter is rejected with `AlreadyVoted`, whatever option it names |
| `Traces.SecondExecuteRejected` | programs/simple_dao/src/lib.rs:119 | after a successful execution every later one fails with `AlreadyExecuted` and dispatches nothing |
| `Traces.FinalizeCanBeOverwritten` | programs/simple_dao/src/lib.rs:89-110 | finalize stores winner 0 on an unvoted Yes/No proposal; a vote after the window followed by a second finalize replaces it with 1 |
| `Traces.YesScenario` | programs/simple_dao/src/lib.rs:58-153 | members {1,2,3}; votes Yes, Yes, No; after the window the winner is 0, and execution dispatches exactly one instruction and is executed exactly when it succeeds |
| `Traces.NoScenario` | programs/simple_dao/src/lib.rs:58-153 | members {1,2,3}; all vote No; the winner is 1 and execution sets `executed` with no instruction dispatched |

## Left out

- Anchor account plumbing is not modelled. This covers the `#[derive(Accounts)]`
  structs, allocation with `init`/`payer`/`space`, rent, and the signer and
  owner checks Anchor performs. The membership list and proposal record
  are passed in as objects.
- Serialization is not modelled, so a record that outgrows its account's
  space is not a failure in the model. Only the constant `Proposal::LEN` is.
- The unused `daoinfo` accounts of the finalize and execute handlers are not
  modelled.
- The clock read can itself fail (`Clock::get()?`). The model takes the
  time as a parameter and has no such failure.
- The `AccountMeta` flags (writable, signer) of the nine accounts are not
  modelled. Neither is the passing of every remaining account's info to
  `invoke`. The invoked program sees only its program id, the first nine
  keys and the data.
- The debug loop that prints a fixed list of names has no effect on state and
  is not modelled.
- `declare_id!`, the `#[msg]` texts of the error codes, and the test client
  `test/anchorTest.ts` (an RPC script with no logic of its own) are not part
  of this model.
- Lifecycle.CreateProposal: requires `now <= i64::MAX - 100`. The overflow
  of `timeStamp + 100` near the end of the `i64` range is not modelled. It
  would panic or wrap depending on the build profile, which is not part of
  this model.
- Accounts.Proposal.CreateProposal: the same `now <= i64::MAX - 100`
  requirement, for the same reason.

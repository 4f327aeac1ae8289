# Voting and donation ink! contracts, modelled in Dafny

This project models the two ink! smart contracts of the donation dApp and
proves properties of the model.

- **Voting** (`voting.dfy`, module `Voting`). The deployer becomes the
  owner. The owner creates proposals, activates them (at most one more
  activation before the next removal) and removes them from voting. Anyone
  may register a user account with a name of at least 3 bytes. A registered
  account casts one Aye or Nye vote per active proposal.
- **Donation** (`donation.dfy`, module `DonationInk`). The contract has an
  owner and a beneficiary, and only the owner may change the beneficiary. A
  payable `donation` message records who gave how much, under ids counted
  from 1. That table can be read back one record at a time or as a whole.
- **Shared part** (`ink.dfy`, module `Ink`). `AccountId`, `Option`, the
  function `Stored`, and `Utf8Length`. `Stored` is the read-back loop that
  both contracts use over their `Mapping`s (ids `0..counter` in ascending
  order, absent ids skipped). `Utf8Length` is the byte length of a string,
  which is what Rust's `String::len` counts.

Each contract is a Dafny class whose fields are the contract's storage:
counters as `int`, each `Mapping` as a `map`. Each message is a method.
`env().caller()` and `env().transferred_value()` are explicit parameters.
The voting messages return `Outcome` (`Ok` or `Err(ProposalError)`). Every
guard is modelled in source order, so an `Err` result leaves the storage
unchanged. A failed `assert!` in the donation contract traps the call, and
the chain discards the call's writes. The model returns `Trapped(message)`
and leaves the storage as it was before the call. This matters in
`donation`, which advances the id counter before its `assert!`: on a zero
donation the model undoes that increment.

Each class has a `Valid()` storage invariant. It holds after the
constructor, and every message that touches storage requires it and keeps
it:

- Voting: the counters are non-negative, and every proposal or user key is
  below its counter. Every stored proposal sits under its own `id` and
  satisfies `total_vote == vote_aye + vote_nye`. Tallies are non-negative,
  and a finished proposal was active. `active_proposal` is 1 or 2. Users
  have an empty `voted_proposal`. Every entry of `voted` is `true` and names
  a stored proposal.
- Donation: `donation_id >= 1`. Every record sits under an id in
  `[1, donation_id)` and holds a positive amount, so id 0 is never written.

The model follows the code as written in three places:

- `change_proposal_status` reports a missing proposal as
  `AccountNotRegistered`, not `ProposalNotFound`.
- `remove_active_proposal` accepts an id with no proposal: it returns `Ok`
  and still resets `active_proposal` to 1. So the activation limit counts
  the calls since the last removal, not the proposals that are active.
  `Voting.TwoActive` proves that two proposals can then be active at once.
- `change_proposal_status` on a proposal that is already active sets its
  tallies back to 0, but it leaves the `voted` entries in place.
  `Voting.ReactivationKeepsVotes` proves that a voter whose vote was erased
  this way is refused as `AlreadyVoted`.

## Model

| member | source | states |
|---|---|---|
| Ink.KeysBelowEnumerates | packages/contracts/voting/lib.rs:362-368 | the keys the read-back loop visits are exactly the keys of the mapping in [0, n), strictly ascending |
| Ink.StoredAt | packages/contracts/voting/lib.rs:362-368 | the i-th result of the read-back loop is the value under the i-th visited key, so each entry appears once, in key order |
| Ink.StoredValues | packages/contracts/voting/lib.rs:373-382 | when all keys lie below the counter, every stored value is in the read-back and every read-back element is a stored value |
| Ink.Utf8Length | packages/contracts/voting/lib.rs:264 | `String::len` counts UTF-8 bytes: between 1 and 4 per character, 0 only for the empty string |
| Ink.AsciiLength | packages/contracts/voting/lib.rs:264 | for an ASCII name the byte length checked by `register_user` equals the character count |
| Voting.ActiveOnlyMembers | packages/contracts/voting/lib.rs:343-356 | the active filter keeps exactly the proposals whose status is true |
| Voting.ActiveOnlyAscending | packages/contracts/voting/lib.rs:343-356 | the active filter preserves order: ascending ids stay ascending |
| Voting.StoredProposalsById | packages/contracts/voting/lib.rs:157-167 | with each proposal stored under its own id, the read-back holds exactly the stored proposals below the counter, by strictly ascending id |
| Voting.Voting.IsOwner | packages/contracts/voting/lib.rs:399-405 | `check_owner`: true exactly when the account is the owner |
| Voting.Voting.ProposalAt | packages/contracts/voting/lib.rs:284 | `proposal.get(id).unwrap_or_default()`: the stored proposal, or, for an id with none, the derived `Proposal::default()` (empty name, tallies 0, inactive, not finished, id 0); only a stored proposal can read as active |
| Voting.Voting.HasVoted | packages/contracts/voting/lib.rs:302 | `voted.get((caller, id)).unwrap_or_default()`: an absent entry reads as false, and true needs a recorded entry |
| Voting.Voting.constructor | packages/contracts/voting/lib.rs:133-145 | the caller is owner, both id counters are 0, active_proposal is 1, all mappings empty, invariant holds |
| Voting.Voting.NextId | packages/contracts/voting/lib.rs:385-389 | returns the old proposal_id, which is a free key, and advances the counter by exactly 1, nothing else changes |
| Voting.Voting.NextUserId | packages/contracts/voting/lib.rs:392-396 | returns the old user_id, which is a free key, and advances the counter by exactly 1, nothing else changes |
| Voting.Voting.CreateProposal | packages/contracts/voting/lib.rs:149-170 | Ok iff the caller is owner; a non-owner gets NotOwner and nothing changes; the owner's proposal goes into the fresh slot proposal_id with zero tallies, inactive, not finished, id = key, and proposal_id grows by 1 |
| Voting.Voting.ChangeProposalStatus | packages/contracts/voting/lib.rs:174-214 | guards in order NotOwner, ReachAcitveProposalLimit (active_proposal > 1), AccountNotRegistered (no proposal), VotingFinishedAlready, each with no change; Ok iff all pass; then name and id kept, tallies 0, status true, not finished, active_proposal + 1 |
| Voting.Voting.RemoveActiveProposal | packages/contracts/voting/lib.rs:217-252 | NotOwner first; an unknown id is Ok with only active_proposal reset to 1; a stored one needs status (else StatusNotAgreed) and not finished (else VotingFinishedAlready); on success only `finished` becomes true and active_proposal is 1 |
| Voting.Voting.RegisterUser | packages/contracts/voting/lib.rs:256-278 | Ok iff the name is at least 3 bytes, else ShortNameLen with no change; the user, with an empty voted list, goes into the fresh slot user_id, which grows by 1 |
| Voting.Voting.VoteProposal | packages/contracts/voting/lib.rs:283-339 | guards in order ProposalStatusError (missing proposal reads as inactive), VotingFinishedAlready, AccountNotRegistered, AlreadyVoted, each with no change; Ok iff all pass; then only the chosen tally and the total grow by 1 and (caller, id) is marked voted |
| Voting.Voting.GetActiveProposal | packages/contracts/voting/lib.rs:343-356 | the active subsequence of the read-back: exactly the stored proposals with status true, by ascending id |
| Voting.Voting.GetAllProposal | packages/contracts/voting/lib.rs:360-369 | the read-back of ids 0..proposal_id: exactly the stored proposals, by strictly ascending id |
| Voting.Voting.GetAllUsers | packages/contracts/voting/lib.rs:373-382 | the read-back of ids 0..user_id: every stored user appears and nothing else |
| Voting.Voting.CheckRegisterUser | packages/contracts/voting/lib.rs:408-420 | true iff some stored user's account is the caller |
| Voting.VoteTwice | packages/contracts/voting/lib.rs:302-305 | after an accepted vote the same caller's immediate second vote on that proposal is AlreadyVoted, and the total went up by exactly 1 |
| Voting.RemoveThenVote | packages/contracts/voting/lib.rs:234-244 | after a stored proposal is removed from voting, any vote on it is VotingFinishedAlready |
| Voting.ActivateTwice | packages/contracts/voting/lib.rs:182-185 | after a successful activation the next activation, of any proposal, is ReachAcitveProposalLimit |
| Voting.TwoActive | packages/contracts/voting/lib.rs:217-252 | after an activation, removing an id with no proposal succeeds and resets the counter, so a second activation succeeds and both proposals are active |
| Voting.ReactivationKeepsVotes | packages/contracts/voting/lib.rs:174-214 | after an accepted vote, removing an unknown id and re-activating the proposal succeed; its total is back to 0, yet the same voter is refused as AlreadyVoted |
| Voting.FirstVote | packages/contracts/voting/lib.rs:308-321 | create, activate, register, vote Aye on a fresh contract gives the proposal tallies 1/0/1, active, not finished |
| Voting.RegisterTwice | packages/contracts/voting/lib.rs:256-278 | the same account registered twice is stored twice, in order |
| DonationInk.DonationContract.constructor | packages/contracts/donation/lib.rs:41-49 | the caller is owner, the beneficiary is the argument, donation_id is 1, the table is empty |
| DonationInk.DonationContract.DonationAt | packages/contracts/donation/lib.rs:22-29 | `donations.get(id).unwrap_or_default()` (read at lib.rs:74 and lib.rs:94): the stored record, or `Donation::default()`, whose account is the zero address (lib.rs:122-124) and whose amount is 0 |
| DonationInk.DonationContract.GetBeneficiary | packages/contracts/donation/lib.rs:52-54 | always `Some`, holding the current beneficiary |
| DonationInk.DonationContract.ChangeBeneficiary | packages/contracts/donation/lib.rs:57-64 | completes iff the caller is owner; otherwise traps with the `assert!` message "Only owner can change the beneficiary account" and nothing changes; on completion only the beneficiary changes |
| DonationInk.DonationContract.NextDonationId | packages/contracts/donation/lib.rs:112-116 | returns the old donation_id, a free id of at least 1, and advances the counter by exactly 1 |
| DonationInk.DonationContract.Donate | packages/contracts/donation/lib.rs:67-89 | completes iff the transferred value is positive; a zero value traps and nothing changes, not even donation_id; otherwise the record {caller, value} goes into the fresh id donation_id, which grows by 1; owner, beneficiary and existing records are untouched |
| DonationInk.DonationContract.GetDonationAmountByUser | packages/contracts/donation/lib.rs:92-97 | the stored (account, amount), or (zero address, 0) for an id never written; amount 0 exactly when nothing is stored |
| DonationInk.DonationContract.GetDonation | packages/contracts/donation/lib.rs:100-109 | the read-back of ids 0..donation_id: every record appears, nothing else, and none comes from id 0 |
| DonationInk.RegisterWorks | packages/contracts/donation/lib.rs:151-157 | a new contract reports Some(beneficiary) |
| DonationInk.ChangeBeneficiaryWorks | packages/contracts/donation/lib.rs:159-169 | the owner moves the beneficiary from bob to charlie |
| DonationInk.StrangerCannotChangeBeneficiary | packages/contracts/donation/lib.rs:59-62 | a non-owner's change traps and the beneficiary stays |
| DonationInk.DonationWorks | packages/contracts/donation/lib.rs:171-191 | alice's donation of 90 is read back at id 1 as (alice, 90) |
| DonationInk.ZeroDonationReverts | packages/contracts/donation/lib.rs:70-76 | a zero donation traps and leaves the table empty, and the next donation still lands at id 1 |
| DonationInk.DonateThenRead | packages/contracts/donation/lib.rs:67-97 | a completed donation is read back under its id as (caller, value), and every earlier record is still there unchanged |

## Left out

- All of `packages/frontend/`: React components around an external contract-binding library, with no contract logic.
- The balance transfer to the beneficiary at the end of `donation` (packages/contracts/donation/lib.rs:86-88): a runtime call whose failure is ignored, with no effect on contract storage.
- Event emission (`ProposalCreated`, `UserCreated`) and `debug_print!`: they do not affect storage.
- SCALE encoding, type metadata and storage layout derives.
- Machine integer widths: the `i32` counters and tallies and the `u128` amounts are unbounded integers. Overflow behaviour is not modelled.
- `AccountId` is a natural number standing for the 32-byte identifier. The zero address is 0.
- `User::default` (packages/contracts/voting/lib.rs:55-63): no message uses it.
- `get_account_id` (packages/contracts/voting/lib.rs:422-425): a getter that returns `owner`. The model reads the `owner` field directly.
- Traps other than the two `assert!`s (running out of gas, storage errors) are not modelled.

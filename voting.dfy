/** The ink! voting contract: an owner creates proposals and moves them
    through activation and removal, registered users cast one Aye or Nye vote
    per proposal. Every message checks its guards in a fixed order and returns
    a `ProposalError` before it touches storage.

    `env().caller()` is the explicit parameter `caller`. The `i32` ids and
    tallies are unbounded integers. */
module Voting {
  import opened Ink

  datatype Vote = Aye | Nye

  datatype Proposal = Proposal(
    name: string,
    voteAye: int,
    voteNye: int,
    totalVote: int,
    status: bool,
    finished: bool,
    id: int)

  /** `Proposal::default()`, what `vote_proposal` reads for an id with no
      stored proposal. */
  const DefaultProposal := Proposal("", 0, 0, 0, false, false, 0)

  /** A registered user. `votedProposal` is never filled in by the contract. */
  datatype User = User(name: string, account: AccountId, votedProposal: seq<Proposal>)

  datatype ProposalError =
    | NotOwner
    | ProposalNotFound
    | AccountNotRegistered
    | ProposalStatusError
    | AlreadyVoted
    | ShortNameLen
    | ReachAcitveProposalLimit
    | StatusNotAgreed
    | VotingFinishedAlready
    | ProposalNotExsits

  /** `Result<(), ProposalError>`. */
  datatype Outcome = Ok | Err(error: ProposalError)

  /** The facts about a single stored proposal that every message keeps. */
  predicate WellFormed(p: Proposal) {
    p.totalVote == p.voteAye + p.voteNye &&
    0 <= p.voteAye && 0 <= p.voteNye &&
    (p.finished ==> p.status)
  }

  /** The proposals of `ps` whose status is true, in their order in `ps`. */
  function ActiveOnly(ps: seq<Proposal>): seq<Proposal>
  {
    if ps == [] then []
    else ActiveOnly(ps[..|ps| - 1]) + (if ps[|ps| - 1].status then [ps[|ps| - 1]] else [])
  }

  /** `ActiveOnly` keeps exactly the proposals whose status is true. */
  lemma {:induction false} ActiveOnlyMembers(ps: seq<Proposal>)
    ensures forall p :: p in ActiveOnly(ps) <==> p in ps && p.status
  {
    if ps != [] {
      var init, last := ps[..|ps| - 1], ps[|ps| - 1];
      ActiveOnlyMembers(init);
      assert ps == init + [last];
    }
  }

  /** `ActiveOnly` keeps the order of `ps`: ids that ascend in `ps` ascend in
      the result. */
  lemma {:induction false} ActiveOnlyAscending(ps: seq<Proposal>)
    requires forall i, j :: 0 <= i < j < |ps| ==> ps[i].id < ps[j].id
    ensures forall i, j :: 0 <= i < j < |ActiveOnly(ps)| ==> ActiveOnly(ps)[i].id < ActiveOnly(ps)[j].id
  {
    if ps != [] {
      var init, last := ps[..|ps| - 1], ps[|ps| - 1];
      ActiveOnlyMembers(init);
      ActiveOnlyAscending(init);
      var front := ActiveOnly(init);
      forall i | 0 <= i < |front|
        ensures front[i].id < last.id
      {
        assert front[i] in init;
        var k :| 0 <= k < |init| && init[k] == front[i];
        assert ps[k] == init[k];
      }
    }
  }

  /** A proposal table read back in key order, when every proposal is stored
      under its own id: the result holds exactly the stored proposals below
      `n`, with ascending ids. */
  lemma {:induction false} StoredProposalsById(proposals: map<int, Proposal>, n: int)
    requires forall k :: k in proposals ==> proposals[k].id == k
    ensures forall p :: p in Stored(proposals, n) <==>
      0 <= p.id < n && p.id in proposals && proposals[p.id] == p
    ensures forall i, j :: 0 <= i < j < |Stored(proposals, n)| ==>
      Stored(proposals, n)[i].id < Stored(proposals, n)[j].id
  {
    StoredAt(proposals, n);
    KeysBelowEnumerates(proposals, n);
    var ks := KeysBelow(proposals, n);
    var r := Stored(proposals, n);
    forall p | p in r
      ensures 0 <= p.id < n && p.id in proposals && proposals[p.id] == p
    {
      var i :| 0 <= i < |r| && r[i] == p;
      assert ks[i] in ks;
    }
    forall p: Proposal | 0 <= p.id < n && p.id in proposals && proposals[p.id] == p
      ensures p in r
    {
      var i :| 0 <= i < |ks| && ks[i] == p.id;
      assert r[i] == p;
    }
  }

  class Voting {
    var owner: AccountId
    var proposalId: int
    var userId: int
    var activeProposal: int
    var proposals: map<int, Proposal>
    var users: map<int, User>
    var voted: map<(AccountId, int), bool>

    /** The storage invariant: the counters bound the keys, every proposal
        sits under its own id and its total is the sum of its tallies, at most
        one activation is outstanding, users carry no voted proposals, and a
        vote is only ever recorded as true against a stored proposal. */
    ghost predicate Valid()
      reads this
    {
      0 <= proposalId && 0 <= userId &&
      1 <= activeProposal <= 2 &&
      (forall k :: k in proposals ==>
        0 <= k < proposalId && proposals[k].id == k && WellFormed(proposals[k])) &&
      (forall k :: k in users ==> 0 <= k < userId && users[k].votedProposal == []) &&
      (forall key :: key in voted ==> voted[key] && key.1 in proposals)
    }

    /** `new`: the caller becomes the owner; nothing is stored yet. */
    constructor (caller: AccountId)
      ensures Valid()
      ensures owner == caller && proposalId == 0 && userId == 0 && activeProposal == 1
      ensures proposals == map[] && users == map[] && voted == map[]
    {
      owner := caller;
      proposals := map[];
      users := map[];
      proposalId := 0;
      userId := 0;
      voted := map[];
      activeProposal := 1;
    }

    /** `check_owner`: true exactly for the owner. */
    predicate IsOwner(user: AccountId): (b: bool)
      reads this
      ensures b <==> user == owner
    {
      owner == user
    }

    /** The proposal stored under `id`, or the default proposal when there is
        none: how `vote_proposal` reads it. */
    function ProposalAt(id: int): (p: Proposal)
      reads this
      ensures id in proposals ==> p == proposals[id]
      ensures id !in proposals ==>
        p.name == "" && p.voteAye == 0 && p.voteNye == 0 && p.totalVote == 0 &&
        !p.status && !p.finished && p.id == 0
      ensures p.status ==> id in proposals
    {
      if id in proposals then proposals[id] else DefaultProposal
    }

    /** Whether a vote by `caller` on proposal `id` is recorded; an absent
        entry reads as false. */
    function HasVoted(caller: AccountId, id: int): (b: bool)
      reads this
      ensures b ==> (caller, id) in voted
      ensures (caller, id) !in voted ==> !b
    {
      (caller, id) in voted && voted[(caller, id)]
    }

    /** Some stored user has `caller` as its account. */
    ghost predicate Registered(caller: AccountId)
      reads this
    {
      exists k :: k in users && users[k].account == caller
    }

    /** `get_next_id`: hands out the current proposal id and advances it. */
    method NextId() returns (id: int)
      requires Valid()
      modifies this
      ensures Valid()
      ensures id == old(proposalId) && proposalId == old(proposalId) + 1
      ensures id !in proposals
      ensures owner == old(owner) && userId == old(userId) && activeProposal == old(activeProposal)
      ensures proposals == old(proposals) && users == old(users) && voted == old(voted)
    {
      id := proposalId;
      proposalId := proposalId + 1;
    }

    /** `get_next_userid`: hands out the current user id and advances it. */
    method NextUserId() returns (id: int)
      requires Valid()
      modifies this
      ensures Valid()
      ensures id == old(userId) && userId == old(userId) + 1
      ensures id !in users
      ensures owner == old(owner) && proposalId == old(proposalId) && activeProposal == old(activeProposal)
      ensures proposals == old(proposals) && users == old(users) && voted == old(voted)
    {
      id := userId;
      userId := userId + 1;
    }

    /** `create_proposal`: only the owner may create; the new proposal goes
        into the fresh slot `proposalId` with no votes, inactive and not
        finished. */
    method CreateProposal(caller: AccountId, name: string) returns (r: Outcome)
      requires Valid()
      modifies this
      ensures Valid()
      ensures r == Ok <==> caller == old(owner)
      ensures r.Err? ==> r.error == NotOwner && unchanged(this)
      ensures r.Ok? ==>
        old(proposalId) !in old(proposals) &&
        proposals == old(proposals)[old(proposalId) := Proposal(name, 0, 0, 0, false, false, old(proposalId))] &&
        proposalId == old(proposalId) + 1
      ensures owner == old(owner) && userId == old(userId) && activeProposal == old(activeProposal)
      ensures users == old(users) && voted == old(voted)
    {
      if !IsOwner(caller) {
        return Err(NotOwner);
      }
      var id := NextId();
      var proposal := Proposal(name, 0, 0, 0, false, false, id);
      proposals := proposals[id := proposal];
      r := Ok;
    }

    /** `change_proposal_status`: guards in order: owner, the activation
        limit, a stored proposal (reported as `AccountNotRegistered`), not
        finished. On success the proposal restarts: tallies 0, active, not
        finished, and one more activation is outstanding. */
    method ChangeProposalStatus(caller: AccountId, id: int) returns (r: Outcome)
      requires Valid()
      modifies this
      ensures Valid()
      ensures caller != old(owner) ==> r == Err(NotOwner)
      ensures caller == old(owner) && old(activeProposal) > 1 ==> r == Err(ReachAcitveProposalLimit)
      ensures caller == old(owner) && old(activeProposal) <= 1 && id !in old(proposals) ==>
        r == Err(AccountNotRegistered)
      ensures (caller == old(owner) && old(activeProposal) <= 1 && id in old(proposals) &&
               old(proposals[id].finished)) ==> r == Err(VotingFinishedAlready)
      ensures r.Err? ==> unchanged(this)
      ensures r.Ok? <==>
        caller == old(owner) && old(activeProposal) <= 1 && id in old(proposals) && !old(proposals[id].finished)
      ensures r.Ok? ==>
        proposals == old(proposals)[id := Proposal(old(proposals[id].name), 0, 0, 0, true, false, old(proposals[id].id))] &&
        activeProposal == old(activeProposal) + 1
      ensures owner == old(owner) && proposalId == old(proposalId) && userId == old(userId)
      ensures users == old(users) && voted == old(voted)
    {
      if !IsOwner(caller) {
        return Err(NotOwner);
      }
      if !(activeProposal <= 1) {
        return Err(ReachAcitveProposalLimit);
      }
      if id !in proposals {
        return Err(AccountNotRegistered);
      }
      var v := proposals[id];
      if v.finished {
        return Err(VotingFinishedAlready);
      }
      var p := Proposal(v.name, 0, 0, 0, true, false, v.id);
      proposals := proposals[id := p];
      activeProposal := activeProposal + 1;
      r := Ok;
    }

    /** `remove_active_proposal`: only the owner; a stored proposal must be
        active and not finished, and is then marked finished with its tallies
        and status kept. An unknown id is no error. Either way the activation
        counter goes back to 1. */
    method RemoveActiveProposal(caller: AccountId, id: int) returns (r: Outcome)
      requires Valid()
      modifies this
      ensures Valid()
      ensures caller != old(owner) ==> r == Err(NotOwner)
      ensures caller == old(owner) && id in old(proposals) && !old(proposals[id].status) ==>
        r == Err(StatusNotAgreed)
      ensures (caller == old(owner) && id in old(proposals) && old(proposals[id].status) &&
               old(proposals[id].finished)) ==> r == Err(VotingFinishedAlready)
      ensures r.Err? ==> unchanged(this)
      ensures r.Ok? <==>
        caller == old(owner) &&
        (id in old(proposals) ==> old(proposals[id].status) && !old(proposals[id].finished))
      ensures r.Ok? && id in old(proposals) ==>
        proposals == old(proposals)[id := old(proposals[id]).(finished := true)]
      ensures r.Ok? && id !in old(proposals) ==> proposals == old(proposals)
      ensures r.Ok? ==> activeProposal == 1
      ensures owner == old(owner) && proposalId == old(proposalId) && userId == old(userId)
      ensures users == old(users) && voted == old(voted)
    {
      var proposal := if id in proposals then Some(proposals[id]) else None;
      if !IsOwner(caller) {
        return Err(NotOwner);
      }
      match proposal {
        case None =>
        case Some(v) =>
          if !v.status {
            return Err(StatusNotAgreed);
          }
          if v.finished {
            return Err(VotingFinishedAlready);
          }
          var p := Proposal(v.name, v.voteAye, v.voteNye, v.totalVote, v.status, true, v.id);
          proposals := proposals[id := p];
      }
      activeProposal := 1;
      r := Ok;
    }

    /** `register_user`: anyone may register any account, provided the name
        is at least 3 bytes long; the user goes into the fresh slot `userId`.
        Nothing stops the same account from being registered again. */
    method RegisterUser(userAccount: AccountId, userName: string) returns (r: Outcome)
      requires Valid()
      modifies this
      ensures Valid()
      ensures r == Ok <==> Utf8Length(userName) >= 3
      ensures r.Err? ==> r.error == ShortNameLen && unchanged(this)
      ensures r.Ok? ==>
        old(userId) !in old(users) &&
        users == old(users)[old(userId) := User(userName, userAccount, [])] &&
        userId == old(userId) + 1
      ensures owner == old(owner) && proposalId == old(proposalId) && activeProposal == old(activeProposal)
      ensures proposals == old(proposals) && voted == old(voted)
    {
      if !(Utf8Length(userName) >= 3) {
        return Err(ShortNameLen);
      }
      var user := User(userName, userAccount, []);
      var uid := NextUserId();
      users := users[uid := user];
      r := Ok;
    }

    /** `vote_proposal`: guards in order: the proposal is active (an unknown
        id reads as the default, inactive proposal), not finished, the caller
        is a registered account, the caller has not voted on it. On success
        one tally and the total go up by one and the vote is recorded. */
    method VoteProposal(caller: AccountId, vote: Vote, id: int) returns (r: Outcome)
      requires Valid()
      modifies this
      ensures Valid()
      ensures !old(ProposalAt(id)).status ==> r == Err(ProposalStatusError)
      ensures old(ProposalAt(id)).status && old(ProposalAt(id)).finished ==> r == Err(VotingFinishedAlready)
      ensures old(ProposalAt(id)).status && !old(ProposalAt(id)).finished && !old(Registered(caller)) ==>
        r == Err(AccountNotRegistered)
      ensures (old(ProposalAt(id)).status && !old(ProposalAt(id)).finished && old(Registered(caller)) &&
               old(HasVoted(caller, id))) ==> r == Err(AlreadyVoted)
      ensures r.Err? ==> unchanged(this)
      ensures r.Ok? <==>
        old(ProposalAt(id)).status && !old(ProposalAt(id)).finished && old(Registered(caller)) &&
        !old(HasVoted(caller, id))
      ensures r.Ok? ==>
        id in old(proposals) &&
        proposals == old(proposals)[id := old(proposals[id]).(
          voteAye := old(proposals[id].voteAye) + (if vote == Aye then 1 else 0),
          voteNye := old(proposals[id].voteNye) + (if vote == Nye then 1 else 0),
          totalVote := old(proposals[id].totalVote) + 1)]
      ensures r.Ok? ==> voted == old(voted)[(caller, id) := true] && HasVoted(caller, id)
      ensures owner == old(owner) && proposalId == old(proposalId) && userId == old(userId)
      ensures activeProposal == old(activeProposal) && users == old(users)
    {
      var proposal := ProposalAt(id);
      if !proposal.status {
        return Err(ProposalStatusError);
      }
      if proposal.finished {
        return Err(VotingFinishedAlready);
      }
      var registered := CheckRegisterUser(caller);
      if !registered {
        return Err(AccountNotRegistered);
      }
      var isVoted := HasVoted(caller, id);
      if isVoted {
        return Err(AlreadyVoted);
      }
      var p;
      match vote {
        case Aye =>
          p := Proposal(proposal.name, proposal.voteAye + 1, proposal.voteNye, proposal.totalVote + 1,
                        proposal.status, proposal.finished, proposal.id);
        case Nye =>
          p := Proposal(proposal.name, proposal.voteAye, proposal.voteNye + 1, proposal.totalVote + 1,
                        proposal.status, proposal.finished, proposal.id);
      }
      proposals := proposals[id := p];
      voted := voted[(caller, id) := true];
      r := Ok;
    }

    /** `get_active_proposal`: the stored proposals whose status is true,
        by ascending id. */
    method GetActiveProposal() returns (r: seq<Proposal>)
      requires Valid()
      ensures r == ActiveOnly(Stored(proposals, proposalId))
      ensures forall p :: p in r <==> p.id in proposals && proposals[p.id] == p && p.status
      ensures forall i, j :: 0 <= i < j < |r| ==> r[i].id < r[j].id
    {
      r := [];
      for i := 0 to proposalId
        invariant r == ActiveOnly(Stored(proposals, i))
      {
        ghost var before := Stored(proposals, i);
        if i in proposals {
          var value := proposals[i];
          assert Stored(proposals, i + 1) == before + [value];
          assert (before + [value])[..|before|] == before;
          if value.status {
            r := r + [value];
          }
        } else {
          assert Stored(proposals, i + 1) == before;
        }
      }
      StoredProposalsById(proposals, proposalId);
      ActiveOnlyMembers(Stored(proposals, proposalId));
      ActiveOnlyAscending(Stored(proposals, proposalId));
    }

    /** `get_all_proposal`: every stored proposal, by ascending id. */
    method GetAllProposal() returns (r: seq<Proposal>)
      requires Valid()
      ensures r == Stored(proposals, proposalId)
      ensures forall p :: p in r <==> p.id in proposals && proposals[p.id] == p
      ensures forall i, j :: 0 <= i < j < |r| ==> r[i].id < r[j].id
    {
      r := [];
      for i := 0 to proposalId
        invariant r == Stored(proposals, i)
      {
        if i in proposals {
          r := r + [proposals[i]];
        }
      }
      StoredProposalsById(proposals, proposalId);
    }

    /** `get_all_users`: every stored user, by ascending user id. */
    method GetAllUsers() returns (r: seq<User>)
      requires Valid()
      ensures r == Stored(users, userId)
      ensures forall k :: k in users ==> users[k] in r
      ensures forall u :: u in r ==> exists k :: k in users && users[k] == u
    {
      r := [];
      for i := 0 to userId
        invariant r == Stored(users, i)
      {
        if i in users {
          r := r + [users[i]];
        }
      }
      StoredValues(users, userId);
    }

    /** `check_register_user`: scans the users for one whose account is
        `caller`, stopping at the first. */
    method CheckRegisterUser(caller: AccountId) returns (found: bool)
      requires Valid()
      ensures found <==> Registered(caller)
    {
      var all := GetAllUsers();
      found := false;
      var i := 0;
      while i < |all|
        invariant 0 <= i <= |all|
        invariant !found
        invariant forall j :: 0 <= j < i ==> all[j].account != caller
      {
        if all[i].account == caller {
          found := true;
          break;
        }
        i := i + 1;
      }
      if found {
        assert all[i] in all;
      } else {
        forall k | k in users
          ensures users[k].account != caller
        {
          var j :| 0 <= j < |all| && all[j] == users[k];
        }
      }
    }
  }

  /** Two votes by the same caller on the same proposal, one straight after
      the other: when the first is accepted the second is refused as
      `AlreadyVoted`, and the tallies show the first vote only. */
  method VoteTwice(v: Voting, caller: AccountId, first: Vote, again: Vote, id: int)
    returns (r1: Outcome, r2: Outcome)
    requires v.Valid()
    modifies v
    ensures v.Valid()
    ensures r1 == Ok ==> r2 == Err(AlreadyVoted)
    ensures r1 == Ok ==>
      id in old(v.proposals) && id in v.proposals &&
      v.proposals[id].totalVote == old(v.proposals[id].totalVote) + 1
    ensures r1.Err? ==> v.proposals == old(v.proposals) && v.voted == old(v.voted)
  {
    r1 := v.VoteProposal(caller, first, id);
    r2 := v.VoteProposal(caller, again, id);
  }

  /** Once the owner has removed a stored proposal from voting, every vote on
      it is refused as `VotingFinishedAlready`. */
  method RemoveThenVote(v: Voting, owner: AccountId, id: int, voter: AccountId, vote: Vote)
    returns (removed: Outcome, late: Outcome)
    requires v.Valid()
    modifies v
    ensures v.Valid()
    ensures removed == Ok && id in old(v.proposals) ==> late == Err(VotingFinishedAlready)
  {
    removed := v.RemoveActiveProposal(owner, id);
    late := v.VoteProposal(voter, vote, id);
  }

  /** Two activations in a row: when the first succeeds the second, of any
      proposal, hits the activation limit. */
  method ActivateTwice(v: Voting, owner: AccountId, id1: int, id2: int)
    returns (r1: Outcome, r2: Outcome)
    requires v.Valid()
    modifies v
    ensures v.Valid()
    ensures r1 == Ok ==> r2 == Err(ReachAcitveProposalLimit)
  {
    r1 := v.ChangeProposalStatus(owner, id1);
    r2 := v.ChangeProposalStatus(owner, id2);
  }

  /** Removing an id that holds no proposal still resets the activation
      counter, so after one activation a second proposal can be activated
      while the first is still active. */
  method TwoActive(v: Voting, owner: AccountId, a: int, unknown: int, b: int)
    returns (r1: Outcome, r2: Outcome, r3: Outcome)
    requires v.Valid()
    modifies v
    ensures v.Valid()
    ensures r1 == Ok && unknown !in old(v.proposals) ==> r2 == Ok
    ensures (r1 == Ok && unknown !in old(v.proposals) &&
             b in old(v.proposals) && !old(v.proposals[b].finished)) ==>
      r3 == Ok && v.activeProposal == 2 &&
      a in v.proposals && v.proposals[a].status && b in v.proposals && v.proposals[b].status
  {
    r1 := v.ChangeProposalStatus(owner, a);
    r2 := v.RemoveActiveProposal(owner, unknown);
    r3 := v.ChangeProposalStatus(owner, b);
  }

  /** Re-activating a proposal zeroes its tallies but keeps the recorded
      votes: a voter whose vote was erased is still refused as
      `AlreadyVoted`. */
  method ReactivationKeepsVotes(v: Voting, owner: AccountId, voter: AccountId, vote: Vote, id: int, unknown: int)
    returns (r1: Outcome, r2: Outcome, r3: Outcome, r4: Outcome)
    requires v.Valid()
    modifies v
    ensures v.Valid()
    ensures (r1 == Ok && owner == old(v.owner) && unknown !in old(v.proposals)) ==>
      r2 == Ok && r3 == Ok && id in v.proposals && v.proposals[id].totalVote == 0 &&
      r4 == Err(AlreadyVoted)
  {
    r1 := v.VoteProposal(voter, vote, id);
    r2 := v.RemoveActiveProposal(owner, unknown);
    r3 := v.ChangeProposalStatus(owner, id);
    r4 := v.VoteProposal(voter, vote, id);
  }

  /** A fresh contract: the owner creates and activates a proposal, and a
      registered voter's Aye is counted. */
  method FirstVote(owner: AccountId, voter: AccountId) returns (p: Proposal)
    ensures p == Proposal("Fund", 1, 0, 1, true, false, 0)
  {
    var v := new Voting(owner);
    var r := v.CreateProposal(owner, "Fund");
    r := v.ChangeProposalStatus(owner, 0);
    r := v.RegisterUser(voter, "alice");
    assert 0 in v.users && v.users[0].account == voter;
    assert v.proposals[0] == Proposal("Fund", 0, 0, 0, true, false, 0);
    r := v.VoteProposal(voter, Aye, 0);
    assert r == Ok;
    p := v.ProposalAt(0);
  }

  /** Registering the same account twice stores two users. */
  method RegisterTwice(owner: AccountId, account: AccountId) returns (all: seq<User>)
    ensures all == [User("alice", account, []), User("alice", account, [])]
  {
    var v := new Voting(owner);
    var r := v.RegisterUser(account, "alice");
    assert r == Ok;
    r := v.RegisterUser(account, "alice");
    assert r == Ok;
    assert v.users[0] == v.users[1] == User("alice", account, []);
    all := v.GetAllUsers();
    assert Stored(v.users, 2) == Stored(v.users, 1) + [v.users[1]];
  }
}

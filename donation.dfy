/** The ink! donation contract: an owner, a beneficiary only the owner may
    change, and an append-only table of donation records under ids handed out
    from a counter that starts at 1.

    `env().caller()` and `env().transferred_value()` are the explicit
    parameters `caller` and `transferred`. A failed `assert!` traps the call,
    and the chain then discards every storage write the call made: the model
    returns `Trapped` and leaves the storage as it was. */
module DonationInk {
  import opened Ink

  /** One donation: who gave and how much (a `u128`, here unbounded). */
  datatype Donation = Donation(account: AccountId, amount: nat)

  /** How a message call ends: normally, or trapped by a failed `assert!`
      whose message is kept. */
  datatype CallResult = Completed | Trapped(message: string)

  const NotOwnerMessage := "Only owner can change the beneficiary account"
  const ZeroDonationMessage := "Cannot transfer 0 donation"

  /** `zero_address`: the account whose 32 bytes are all zero. */
  const ZeroAddress: AccountId := 0

  /** `Donation::default()`. */
  const DefaultDonation := Donation(ZeroAddress, 0)

  class DonationContract {
    var owner: AccountId
    var beneficiary: AccountId
    var donations: map<int, Donation>
    var donationId: int

    /** The storage invariant: the counter is at least 1, every record sits
        under an id in [1, donationId) and records a positive amount. */
    ghost predicate Valid()
      reads this
    {
      1 <= donationId &&
      forall id :: id in donations ==> 1 <= id < donationId && donations[id].amount > 0
    }

    /** `new`: the caller becomes the owner; the table is empty and the first
        id handed out will be 1. */
    constructor (caller: AccountId, beneficiary: AccountId)
      ensures Valid()
      ensures owner == caller && this.beneficiary == beneficiary
      ensures donations == map[] && donationId == 1
    {
      owner := caller;
      this.beneficiary := beneficiary;
      donations := map[];
      donationId := 1;
    }

    /** `donations.get(id).unwrap_or_default()`: the record stored under `id`,
        or the default record (zero address, amount 0) when there is none. */
    function DonationAt(id: int): (d: Donation)
      reads this
      ensures id in donations ==> d == donations[id]
      ensures id !in donations ==> d.account == ZeroAddress && d.amount == 0
    {
      if id in donations then donations[id] else DefaultDonation
    }

    /** `get_beneficiary`: always `Some`, holding the current beneficiary. */
    function GetBeneficiary(): (r: Option<AccountId>)
      reads this
      ensures r.Some? && r.value == beneficiary
    {
      Some(beneficiary)
    }

    /** `change_beneficiary`: traps unless the caller is the owner; otherwise
        replaces the beneficiary and nothing else. */
    method ChangeBeneficiary(caller: AccountId, newBeneficiary: AccountId) returns (r: CallResult)
      requires Valid()
      modifies this
      ensures Valid()
      ensures r == Completed <==> caller == old(owner)
      ensures r.Trapped? ==> r.message == NotOwnerMessage && unchanged(this)
      ensures r.Completed? ==> beneficiary == newBeneficiary
      ensures owner == old(owner) && donations == old(donations) && donationId == old(donationId)
    {
      if owner != caller {
        return Trapped(NotOwnerMessage);
      }
      beneficiary := newBeneficiary;
      r := Completed;
    }

    /** `next_donation_id`: hands out the current id and advances it. */
    method NextDonationId() returns (id: int)
      requires Valid()
      modifies this
      ensures Valid()
      ensures id == old(donationId) && donationId == old(donationId) + 1
      ensures id !in donations && id >= 1
      ensures owner == old(owner) && beneficiary == old(beneficiary) && donations == old(donations)
    {
      id := donationId;
      donationId := donationId + 1;
    }

    /** `donation` (payable): takes the next id, reads the record there (a
        fresh id, so the default), and traps when nothing was transferred,
        which also undoes the id increment. Otherwise the record becomes the
        caller with the transferred amount. Existing records, the owner and
        the beneficiary are never touched. The transfer to the beneficiary
        that follows is not modelled. */
    method Donate(caller: AccountId, transferred: nat) returns (r: CallResult)
      requires Valid()
      modifies this
      ensures Valid()
      ensures r == Completed <==> transferred > 0
      ensures r.Trapped? ==>
        r.message == ZeroDonationMessage && donations == old(donations) && donationId == old(donationId)
      ensures r.Completed? ==>
        old(donationId) !in old(donations) &&
        donations == old(donations)[old(donationId) := Donation(caller, transferred)] &&
        donationId == old(donationId) + 1
      ensures owner == old(owner) && beneficiary == old(beneficiary)
    {
      var storedId := donationId;
      var id := NextDonationId();
      var donatedSoFar := DonationAt(id);
      if !(transferred > 0) {
        // the trap reverts the call's storage writes
        donationId := storedId;
        return Trapped(ZeroDonationMessage);
      }
      donatedSoFar := donatedSoFar.(amount := donatedSoFar.amount + transferred);
      donatedSoFar := donatedSoFar.(account := caller);
      donations := donations[id := donatedSoFar];
      r := Completed;
    }

    /** `get_donation_amount_by_user`: the record under `id` as a pair, or the
        default record's pair when nothing is stored there. */
    function GetDonationAmountByUser(id: int): (r: (AccountId, nat))
      reads this
      requires Valid()
      ensures id in donations ==> r == (donations[id].account, donations[id].amount) && r.1 > 0
      ensures id !in donations ==> r == (ZeroAddress, 0)
      ensures r.1 == 0 <==> id !in donations
    {
      (DonationAt(id).account, DonationAt(id).amount)
    }

    /** `get_donation`: every record, by ascending id. Id 0 is never written. */
    method GetDonation() returns (r: seq<Donation>)
      requires Valid()
      ensures r == Stored(donations, donationId)
      ensures forall id :: id in donations ==> donations[id] in r
      ensures forall d :: d in r ==> exists id :: id in donations && donations[id] == d && id != 0
    {
      r := [];
      for i := 0 to donationId
        invariant r == Stored(donations, i)
      {
        if i in donations {
          r := r + [donations[i]];
        }
      }
      StoredValues(donations, donationId);
    }
  }

  /** The `register_works` test: a new contract reports the beneficiary it
      was created with. */
  method RegisterWorks(alice: AccountId, bob: AccountId) returns (b: Option<AccountId>)
    ensures b == Some(bob)
  {
    var contract := new DonationContract(alice, bob);
    b := contract.GetBeneficiary();
  }

  /** The `change_beneficiary_works` test: the owner moves the beneficiary
      from bob to charlie. */
  method ChangeBeneficiaryWorks(alice: AccountId, bob: AccountId, charlie: AccountId)
    returns (before: Option<AccountId>, after: Option<AccountId>)
    ensures before == Some(bob) && after == Some(charlie)
  {
    var contract := new DonationContract(alice, bob);
    before := contract.GetBeneficiary();
    var r := contract.ChangeBeneficiary(alice, charlie);
    after := contract.GetBeneficiary();
  }

  /** A caller other than the owner cannot move the beneficiary. */
  method StrangerCannotChangeBeneficiary(alice: AccountId, bob: AccountId, eve: AccountId)
    returns (r: CallResult, after: Option<AccountId>)
    requires eve != alice
    ensures r == Trapped(NotOwnerMessage) && after == Some(bob)
  {
    var contract := new DonationContract(alice, bob);
    r := contract.ChangeBeneficiary(eve, eve);
    after := contract.GetBeneficiary();
  }

  /** The `donation_works` test, storage part: alice's 90 lands at id 1. */
  method DonationWorks(alice: AccountId, bob: AccountId) returns (account: AccountId, amount: nat)
    ensures account == alice && amount == 90
  {
    var contract := new DonationContract(alice, bob);
    var r := contract.Donate(alice, 90);
    account, amount := contract.GetDonationAmountByUser(1).0, contract.GetDonationAmountByUser(1).1;
  }

  /** A zero donation traps: no record, and the next donation still gets
      id 1. */
  method ZeroDonationReverts(alice: AccountId, bob: AccountId)
    returns (r: CallResult, all: seq<Donation>, account: AccountId, amount: nat)
    ensures r == Trapped(ZeroDonationMessage) && all == []
    ensures account == bob && amount == 5
  {
    var contract := new DonationContract(alice, bob);
    r := contract.Donate(alice, 0);
    all := contract.GetDonation();
    assert Stored(contract.donations, 1) == [];
    var ok := contract.Donate(bob, 5);
    account, amount := contract.GetDonationAmountByUser(1).0, contract.GetDonationAmountByUser(1).1;
  }

  /** Every completed donation is read back under the id it was given, and
      earlier records are still there unchanged. */
  method DonateThenRead(c: DonationContract, caller: AccountId, transferred: nat, earlier: int)
    returns (r: CallResult, account: AccountId, amount: nat)
    requires c.Valid()
    modifies c
    ensures c.Valid()
    ensures r.Completed? ==> account == caller && amount == transferred
    ensures earlier in old(c.donations) ==> earlier in c.donations && c.donations[earlier] == old(c.donations[earlier])
  {
    var id := c.donationId;
    r := c.Donate(caller, transferred);
    account, amount := c.GetDonationAmountByUser(id).0, c.GetDonationAmountByUser(id).1;
  }
}

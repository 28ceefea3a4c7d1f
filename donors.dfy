/** A donor: personal details plus an id drawn from the donor counter. */
module Donors {
  import opened JavaTypes
  import opened Ids
  import opened Persons

  class Donor {
    const donorId: Int32
    const info: PersonInfo

    /** Takes the next donor id; the personal details, blood group included,
        are kept exactly as given. */
    constructor (donorIds: IdCounter, info: PersonInfo)
      modifies donorIds
      ensures donorId == old(donorIds.next) && donorIds.next == Succ(old(donorIds.next))
      ensures this.info == info
    {
      var id := donorIds.Take();
      donorId := id;
      this.info := info;
    }
  }

  /** After `setNextId(k)` the next donor created has id `k`. */
  method ReseedThenCreate(donorIds: IdCounter, k: Int32, info: PersonInfo) returns (d: Donor)
    modifies donorIds
    ensures d.donorId == k && d.info == info && donorIds.next == Succ(k)
  {
    donorIds.SetNextId(k);
    d := new Donor(donorIds, info);
  }

  /** Two donors created one after the other get consecutive, distinct ids. */
  method CreateTwo(donorIds: IdCounter, first: PersonInfo, second: PersonInfo) returns (d1: Donor, d2: Donor)
    modifies donorIds
    ensures d1.donorId == old(donorIds.next) && d2.donorId == Succ(d1.donorId)
    ensures d1.donorId != d2.donorId && d1 != d2
  {
    d1 := new Donor(donorIds, first);
    d2 := new Donor(donorIds, second);
  }
}

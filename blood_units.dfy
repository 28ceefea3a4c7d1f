/** A donated unit of blood and the three states it can be in. */
module BloodUnits {
  import opened JavaTypes
  import opened Ids

  /** The states of a unit. */
  datatype BloodStatus = InStock | Issued | Expired

  /** A unit expires this many days after its donation. */
  const SHELF_LIFE_DAYS: int := 42
  /** A unit in stock is "expiring soon" within this many days of its expiry. */
  const EXPIRY_WARNING_DAYS: int := 7

  class BloodUnit {
    const unitId: Int32
    const donorId: Int32
    const bloodGroup: string
    const donationDate: int
    const expiryDate: int
    var status: BloodStatus
    var recipientId: Option<Int32>

    /** A new unit takes the next unit id, is donated `today`, and starts in
        stock with no recipient. */
    constructor (unitIds: IdCounter, donorId: Int32, bloodGroup: string, today: int)
      modifies unitIds
      ensures unitId == old(unitIds.next) && unitIds.next == Succ(old(unitIds.next))
      ensures this.donorId == donorId && this.bloodGroup == bloodGroup
      ensures donationDate == today && expiryDate == donationDate + SHELF_LIFE_DAYS
      ensures status == InStock && recipientId == None
      ensures !IsExpired(today) && !IsExpiringSoon(today)
    {
      var id := unitIds.Take();
      unitId := id;
      this.donorId := donorId;
      this.bloodGroup := bloodGroup;
      donationDate := today;
      expiryDate := today + SHELF_LIFE_DAYS;
      status := InStock;
      recipientId := None;
    }

    /** Sets the status, whatever it was; the recipient link is left as it is. */
    method SetStatus(status: BloodStatus)
      modifies this
      ensures this.status == status && recipientId == old(recipientId)
    {
      this.status := status;
    }

    /** Marks the unit issued to `recipientId`, whatever its status was. */
    method IssueToRecipient(recipientId: Int32)
      modifies this
      ensures status == Issued && this.recipientId == Some(recipientId)
    {
      status := Issued;
      this.recipientId := Some(recipientId);
    }

    /** Expired once `today` is strictly after the expiry date. */
    function IsExpired(today: int): (r: bool)
      ensures r <==> expiryDate + 1 <= today
      ensures today <= expiryDate ==> !r
    {
      today > expiryDate
    }

    /** In stock, not expired, and expiring no later than the warning date. */
    function IsExpiringSoon(today: int): (r: bool)
      reads this
      ensures status != InStock ==> !r
      ensures r ==> !IsExpired(today)
      ensures r <==> status == InStock && today <= expiryDate <= today + EXPIRY_WARNING_DAYS
    {
      if status != InStock then false
      else
        var warningDate := today + EXPIRY_WARNING_DAYS;
        !IsExpired(today) && (expiryDate < warningDate || expiryDate == warningDate)
    }
  }

  /** Once a unit is expired it stays expired on every later day. */
  lemma ExpiredStaysExpired(u: BloodUnit, today: int, later: int)
    requires u.IsExpired(today) && today <= later
    ensures u.IsExpired(later)
  {
  }

  /** The two boundaries: expiring today is not yet expired, and a unit in
      stock that expires exactly on the warning date is expiring soon. */
  lemma ExpiryBoundaries(u: BloodUnit, today: int)
    ensures u.expiryDate == today ==> !u.IsExpired(today)
    ensures u.status == InStock && u.expiryDate == today + EXPIRY_WARNING_DAYS ==> u.IsExpiringSoon(today)
    ensures u.status == InStock && u.expiryDate == today ==> u.IsExpiringSoon(today)
  {
  }
}

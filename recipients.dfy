/** A recipient: personal details, the reason for the transfusion, and the
    day a unit was received (absent while the request is pending). */
module Recipients {
  import opened JavaTypes
  import opened Ids
  import opened Persons

  class Recipient {
    const recipientId: Int32
    const info: PersonInfo
    const reasonForTransfusion: string
    var dateReceived: Option<int>

    /** Takes the next recipient id; details and reason are kept as given and
        nothing has been received yet. */
    constructor (recipientIds: IdCounter, info: PersonInfo, reasonForTransfusion: string)
      modifies recipientIds
      ensures recipientId == old(recipientIds.next) && recipientIds.next == Succ(old(recipientIds.next))
      ensures this.info == info && this.reasonForTransfusion == reasonForTransfusion
      ensures dateReceived == None && !DidReceiveUnit()
    {
      var id := recipientIds.Take();
      recipientId := id;
      this.info := info;
      this.reasonForTransfusion := reasonForTransfusion;
      dateReceived := None;
    }

    /** Whether a unit has been received. */
    function DidReceiveUnit(): (r: bool)
      reads this
      ensures r <==> dateReceived != None
    {
      dateReceived.Some?
    }

    /** Stamps the recipient as served `today` (again, if already served). */
    method MarkAsReceived(today: int)
      modifies this
      ensures dateReceived == Some(today) && DidReceiveUnit()
    {
      dateReceived := Some(today);
    }
  }

  /** After `setNextId(k)` the next recipient created has id `k`. */
  method ReseedThenCreate(recipientIds: IdCounter, k: Int32, info: PersonInfo, reason: string)
    returns (r: Recipient)
    modifies recipientIds
    ensures r.recipientId == k && recipientIds.next == Succ(k)
    ensures r.info == info && r.reasonForTransfusion == reason && !r.DidReceiveUnit()
  {
    recipientIds.SetNextId(k);
    r := new Recipient(recipientIds, info, reason);
  }
}

/** The life of a document. */
module Statuses {
  datatype Status = Queued | Processing | Completed | NeedsReview | Failed
  {
    predicate Terminal() {
      Completed? || NeedsReview? || Failed?
    }

    /** How far along a document is: queued, then processing, then any terminal status. */
    function Stage(): nat {
      match this
      case Queued => 0
      case Processing => 1
      case _ => 2
    }
  }
}

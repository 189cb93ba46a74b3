/**
 * The notifier shared by the classifier branch, the idle fallback and the
 * output gate. The library's event notifier is reduced to its one piece of
 * state: whether a notification is pending.
 */
module Notifier {

  class EventNotifier {
    var pending: bool

    constructor ()
      ensures !pending
    {
      pending := false;
    }

    /** Sets the pending flag; a second notify before a wait changes nothing. */
    method Notify()
      modifies this
      ensures pending
    {
      pending := true;
    }

    /** A wait that returns now if a notification is pending, and consumes it. */
    method TryWait() returns (released: bool)
      modifies this
      ensures released == old(pending)
      ensures !pending
    {
      released := pending;
      pending := false;
    }
  }

  /** Two notifies before a wait release exactly one wait. */
  method CoalescedNotify() returns (first: bool, second: bool)
    ensures first && !second
  {
    var n := new EventNotifier();
    n.Notify();
    n.Notify();
    first := n.TryWait();
    second := n.TryWait();
  }
}

/** One channel and what the poller and the kernel hold for it: its interest mask, its three-valued index,
    whether it is in the poller's table, and its entry in the kernel's epoll set. */
module Links {
  import opened SystemCalls

  datatype Index = New | Added | Deleted

  datatype Link = Link(events: Mask, index: Index, registered: bool, kernel: Option<Mask>)

  const UNUSED: Link := Link(NONE_EVENT, New, false, None)

  predicate IsWriting(l: Link) {
    Has(l.events, WRITE_EVENT)
  }

  predicate IsReading(l: Link) {
    Has(l.events, READ_EVENT)
  }

  /** The poller's update for a channel whose mask has just changed. */
  function Updated(l: Link): Link {
    match l.index
    case Added => if l.events == NONE_EVENT then l.(index := Deleted, kernel := None) else l.(kernel := Some(l.events))
    case _ => l.(index := Added, registered := true, kernel := Some(l.events))
  }

  function WithEvents(l: Link, events: Mask): Link {
    Updated(l.(events := events))
  }

  function EnableReading(l: Link): Link { WithEvents(l, l.events | READ_EVENT) }

  function EnableWriting(l: Link): Link { WithEvents(l, l.events | WRITE_EVENT) }

  function DisableWriting(l: Link): Link { WithEvents(l, l.events & !WRITE_EVENT) }

  function DisableAll(l: Link): Link { WithEvents(l, NONE_EVENT) }

  function Removed(l: Link): Link { l.(index := New, registered := false, kernel := None) }

  /** Channel, table and kernel tell one story. */
  predicate Coherent(l: Link) {
    && (l.registered <==> l.index != New)
    && l.kernel == (if l.index == Added then Some(l.events) else None)
    && (l.index == Deleted ==> l.events == NONE_EVENT)
  }

  lemma WithEventsCoherent(l: Link, events: Mask)
    requires Coherent(l)
    ensures Coherent(WithEvents(l, events))
    ensures WithEvents(l, events).events == events
  {
  }

  /** Switching off all interest takes a watched channel out of the kernel's set, but puts an unwatched one
      in, with an empty mask: index Added does not mean a non-empty mask. */
  lemma DisableAllToggles(l: Link)
    requires Coherent(l)
    ensures DisableAll(l).kernel.Some? <==> l.index != Added
  {
  }
}

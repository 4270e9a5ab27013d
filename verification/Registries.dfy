/** The poller's table and the kernel's epoll set for any number of channels. C names a channel. */
module Registries {
  import opened SystemCalls
  import opened Links

  /** The fields of a channel that the poller works with. */
  datatype Slot = Slot(fd: int, events: Mask, index: Index)

  /** What epoll_ctl stored for a descriptor: the mask, and the channel pointer handed back with its events. */
  datatype Entry<C> = Entry(mask: Mask, channel: C)

  /** refused counts the epoll_ctl calls the kernel turned down. */
  datatype Registry<!C> = Registry(slots: map<C, Slot>, channels: map<int, C>, kernel: map<int, Entry<C>>, refused: nat)

  datatype CtlOp = Add | Mod | Del

  /** epoll_ctl: ADD needs an absent descriptor, MOD and DEL a present one; otherwise nothing changes. */
  function EpollCtl<C>(r: Registry<C>, op: CtlOp, c: C): Registry<C>
    requires c in r.slots
  {
    var slot := r.slots[c];
    if (slot.fd in r.kernel) == op.Add? then r.(refused := r.refused + 1)
    else if op.Del? then r.(kernel := r.kernel - {slot.fd})
    else r.(kernel := r.kernel[slot.fd := Entry(slot.events, c)])
  }

  function WithIndex<C>(r: Registry<C>, c: C, index: Index): Registry<C>
    requires c in r.slots
  {
    r.(slots := r.slots[c := r.slots[c].(index := index)])
  }

  function UpdateChannel<C>(r: Registry<C>, c: C): Registry<C>
    requires c in r.slots
  {
    var slot := r.slots[c];
    match slot.index
    case New => EpollCtl(WithIndex(r.(channels := r.channels[slot.fd := c]), c, Added), Add, c)
    case Deleted => EpollCtl(WithIndex(r, c, Added), Add, c)
    case Added =>
      if slot.events == NONE_EVENT then WithIndex(EpollCtl(r, Del, c), c, Deleted) else EpollCtl(r, Mod, c)
  }

  function RemoveChannel<C>(r: Registry<C>, c: C): Registry<C>
    requires c in r.slots
  {
    var erased := r.(channels := r.channels - {r.slots[c].fd});
    WithIndex(if r.slots[c].index == Added then EpollCtl(erased, Del, c) else erased, c, New)
  }

  /** Setting a channel's mask and pushing the change to the poller, as each enable and disable call does. */
  function Change<C>(r: Registry<C>, c: C, events: Mask): Registry<C>
    requires c in r.slots
  {
    UpdateChannel(r.(slots := r.slots[c := r.slots[c].(events := events)]), c)
  }

  function Attach<C>(r: Registry<C>, c: C, fd: int): Registry<C> {
    r.(slots := r.slots[c := Slot(fd, NONE_EVENT, New)])
  }

  // ---- What every operation keeps

  /** The table holds under fd a channel of that descriptor, with index Added or Deleted. */
  ghost predicate TableOk<C>(r: Registry<C>, fd: int) {
    fd in r.channels ==>
      r.channels[fd] in r.slots && r.slots[r.channels[fd]].fd == fd && r.slots[r.channels[fd]].index != New
  }

  /** The kernel's set holds fd only for a channel of the table with index Added. */
  ghost predicate KernelOk<C>(r: Registry<C>, fd: int) {
    fd in r.kernel ==>
      fd in r.channels && r.channels[fd] in r.slots && r.slots[r.channels[fd]].index == Added
  }

  /** A channel is in the table if its index is Added or Deleted, and in the kernel's set, with its current mask
      and its own pointer, if it is Added; a Deleted one has an empty mask. */
  ghost predicate SlotOk<C>(r: Registry<C>, c: C)
    requires c in r.slots
  {
    var slot := r.slots[c];
    && (slot.index != New ==> slot.fd in r.channels && r.channels[slot.fd] == c)
    && (slot.index == Added ==> slot.fd in r.kernel && r.kernel[slot.fd] == Entry(slot.events, c))
    && (slot.index == Deleted ==> slot.events == NONE_EVENT)
  }

  /** Table, kernel and channels tell one story, and the kernel has refused nothing. */
  ghost predicate Coherent<C>(r: Registry<C>) {
    && (forall fd :: TableOk(r, fd))
    && (forall fd :: KernelOk(r, fd))
    && (forall c {:trigger SlotOk(r, c)} | c in r.slots :: SlotOk(r, c))
    && r.refused == 0
  }

  /** No other channel with this descriptor is in the table. */
  ghost predicate Exclusive<C>(r: Registry<C>, c: C)
    requires c in r.slots
  {
    r.slots[c].index == New ==> r.slots[c].fd !in r.channels
  }

  /** d does not use c's descriptor. */
  ghost predicate NoRival<C>(r: Registry<C>, c: C, d: C)
    requires c in r.slots && d in r.slots
  {
    d != c && r.slots[d].fd == r.slots[c].fd ==> r.slots[d].index == New
  }

  /** No other channel is using this descriptor: what a channel's owner relies on. */
  ghost predicate Owns<C>(r: Registry<C>, c: C)
    requires c in r.slots
  {
    forall d {:trigger NoRival(r, c, d)} | d in r.slots :: NoRival(r, c, d)
  }

  lemma OwnerExclusive<C>(r: Registry<C>, c: C)
    requires Coherent(r) && c in r.slots && Owns(r, c)
    ensures Exclusive(r, c)
  {
    var fd := r.slots[c].fd;
    assert TableOk(r, fd);
    if fd in r.channels {
      assert NoRival(r, c, r.channels[fd]);
    }
  }

  /** One channel's view of the registry. */
  ghost function LinkOf<C>(r: Registry<C>, c: C): Link
    requires c in r.slots
  {
    var slot := r.slots[c];
    Link(slot.events, slot.index,
         slot.fd in r.channels && r.channels[slot.fd] == c,
         if slot.fd in r.kernel && r.kernel[slot.fd].channel == c then Some(r.kernel[slot.fd].mask) else None)
  }

  ghost predicate Kept<C>(r: Registry<C>, t: Registry<C>, d: C)
    requires d in r.slots && d in t.slots
  {
    t.slots[d] == r.slots[d] && LinkOf(t, d) == LinkOf(r, d)
  }

  /** A change touches no other channel. */
  ghost predicate OthersKept<C>(r: Registry<C>, t: Registry<C>, c: C) {
    && t.slots.Keys == r.slots.Keys
    && (c in r.slots ==> t.slots[c].fd == r.slots[c].fd)
    && (forall d {:trigger Kept(r, t, d)} | d in r.slots && d != c :: Kept(r, t, d))
  }

  lemma OthersKeptTwice<C>(r: Registry<C>, s: Registry<C>, t: Registry<C>, c: C)
    requires OthersKept(r, s, c) && OthersKept(s, t, c)
    ensures OthersKept(r, t, c)
  {
    forall d | d in r.slots && d != c ensures Kept(r, t, d) {
      assert Kept(r, s, d) && Kept(s, t, d);
    }
  }

  /** A registry after one operation on c: c's slot, its descriptor's entries, and nothing else. */
  ghost predicate Rewrites<C>(r: Registry<C>, t: Registry<C>, c: C, slot: Slot)
    requires c in r.slots
  {
    && slot.fd == r.slots[c].fd
    && t.slots == r.slots[c := slot]
    && t.channels == (if slot.index == New then r.channels - {slot.fd} else r.channels[slot.fd := c])
    && t.kernel == (if slot.index == Added then r.kernel[slot.fd := Entry(slot.events, c)] else r.kernel - {slot.fd})
    && t.refused == 0
  }

  lemma ChangeRewrites<C>(r: Registry<C>, c: C, events: Mask)
    requires Coherent(r) && c in r.slots && Exclusive(r, c)
    ensures var slot := Slot(r.slots[c].fd, events,
                             if r.slots[c].index == Added && events == NONE_EVENT then Deleted else Added);
            Rewrites(r, Change(r, c, events), c, slot)
  {
    var fd := r.slots[c].fd;
    assert SlotOk(r, c) && TableOk(r, fd) && KernelOk(r, fd);
  }

  lemma RemoveRewrites<C>(r: Registry<C>, c: C)
    requires Coherent(r) && c in r.slots && Exclusive(r, c)
    ensures Rewrites(r, RemoveChannel(r, c), c, Slot(r.slots[c].fd, r.slots[c].events, New))
  {
    var fd := r.slots[c].fd;
    assert SlotOk(r, c) && TableOk(r, fd) && KernelOk(r, fd);
  }

  lemma RewriteCoherent<C>(r: Registry<C>, t: Registry<C>, c: C, slot: Slot)
    requires Coherent(r) && c in r.slots && Exclusive(r, c)
    requires Rewrites(r, t, c, slot) && (slot.index == Deleted ==> slot.events == NONE_EVENT)
    ensures Coherent(t)
  {
    assert SlotOk(r, c);
    forall fd ensures TableOk(t, fd) && KernelOk(t, fd) {
      assert TableOk(r, fd) && KernelOk(r, fd);
    }
    forall d {:trigger SlotOk(t, d)} | d in t.slots ensures SlotOk(t, d) {
      assert SlotOk(r, d);
    }
  }

  lemma RewriteOthers<C>(r: Registry<C>, t: Registry<C>, c: C, slot: Slot)
    requires Coherent(r) && c in r.slots && Exclusive(r, c)
    requires Rewrites(r, t, c, slot)
    ensures OthersKept(r, t, c)
    ensures Owns(r, c) ==> Owns(t, c)
  {
    var fd := slot.fd;
    assert SlotOk(r, c) && TableOk(r, fd) && KernelOk(r, fd);
    forall d | d in r.slots && d != c ensures Kept(r, t, d) {
      assert SlotOk(r, d);
      assert TableOk(r, r.slots[d].fd) && KernelOk(r, r.slots[d].fd);
    }
    if Owns(r, c) {
      forall d | d in t.slots ensures NoRival(t, c, d) {
        assert NoRival(r, c, d);
      }
    }
  }

  lemma CoherentLink<C>(r: Registry<C>, c: C)
    requires Coherent(r) && c in r.slots && Exclusive(r, c)
    ensures Links.Coherent(LinkOf(r, c))
  {
    var fd := r.slots[c].fd;
    assert SlotOk(r, c) && TableOk(r, fd) && KernelOk(r, fd);
  }

  /** An enable or disable call keeps the registry coherent, touches no other channel, and does to this
      channel what Links.WithEvents says. */
  lemma ChangeCoherent<C>(r: Registry<C>, c: C, events: Mask)
    requires Coherent(r) && c in r.slots && Exclusive(r, c)
    ensures Coherent(Change(r, c, events))
    ensures OthersKept(r, Change(r, c, events), c)
    ensures LinkOf(Change(r, c, events), c) == Links.WithEvents(LinkOf(r, c), events)
    ensures Owns(r, c) ==> Owns(Change(r, c, events), c)
  {
    var slot := Slot(r.slots[c].fd, events,
                     if r.slots[c].index == Added && events == NONE_EVENT then Deleted else Added);
    ChangeRewrites(r, c, events);
    RewriteCoherent(r, Change(r, c, events), c, slot);
    RewriteOthers(r, Change(r, c, events), c, slot);
    CoherentLink(r, c);
    CoherentLink(Change(r, c, events), c);
  }

  /** So does a remove call. */
  lemma RemoveCoherent<C>(r: Registry<C>, c: C)
    requires Coherent(r) && c in r.slots && Exclusive(r, c)
    ensures Coherent(RemoveChannel(r, c))
    ensures OthersKept(r, RemoveChannel(r, c), c)
    ensures LinkOf(RemoveChannel(r, c), c) == Links.Removed(LinkOf(r, c))
    ensures Owns(r, c) ==> Owns(RemoveChannel(r, c), c)
  {
    var slot := Slot(r.slots[c].fd, r.slots[c].events, New);
    RemoveRewrites(r, c);
    RewriteCoherent(r, RemoveChannel(r, c), c, slot);
    RewriteOthers(r, RemoveChannel(r, c), c, slot);
    CoherentLink(RemoveChannel(r, c), c);
  }

  /** Making a channel leaves table and kernel as they are. */
  lemma AttachCoherent<C>(r: Registry<C>, c: C, fd: int)
    requires Coherent(r) && c !in r.slots
    ensures Coherent(Attach(r, c, fd)) && LinkOf(Attach(r, c, fd), c) == UNUSED
    ensures (forall d | d in r.slots && r.slots[d].fd == fd :: r.slots[d].index == New) ==> Owns(Attach(r, c, fd), c)
    ensures forall d {:trigger Kept(r, Attach(r, c, fd), d)} | d in r.slots :: Kept(r, Attach(r, c, fd), d)
  {
    var t := Attach(r, c, fd);
    forall f: int ensures TableOk(t, f) && KernelOk(t, f) && (f in r.channels ==> r.channels[f] != c) {
      assert TableOk(r, f) && KernelOk(r, f);
    }
    assert KernelOk(r, fd) && TableOk(r, fd);
    forall d {:trigger SlotOk(t, d)} | d in t.slots ensures SlotOk(t, d) {
      if d != c {
        assert SlotOk(r, d);
      }
    }
    if fd in r.kernel {
      assert SlotOk(r, r.channels[fd]);
    }
  }

  /** Exclusive use is exactly what keeps the registry coherent: a second channel for a registered descriptor
      breaks it, and makes the kernel refuse the call when that descriptor is being watched. */
  lemma ChangeCoherentIff<C>(r: Registry<C>, c: C, events: Mask)
    requires Coherent(r) && c in r.slots
    ensures Coherent(Change(r, c, events)) <==> Exclusive(r, c)
    ensures Change(r, c, events).refused > 0 <==> r.slots[c].index == New && r.slots[c].fd in r.kernel
  {
    var t, fd := Change(r, c, events), r.slots[c].fd;
    assert SlotOk(r, c) && TableOk(r, fd) && KernelOk(r, fd);
    if Exclusive(r, c) {
      ChangeCoherent(r, c, events);
    } else {
      var d := r.channels[fd];
      assert TableOk(r, fd);
      assert t.slots[d] == r.slots[d] && t.channels[fd] == c;
      assert !SlotOk(t, d);
    }
  }

  /** The same for a removal, which erases the table entry of the descriptor whichever channel holds it: only
      the entry of a channel that is still in use can be lost, and the kernel refuses nothing. */
  lemma RemoveCoherentIff<C>(r: Registry<C>, c: C)
    requires Coherent(r) && c in r.slots
    ensures Coherent(RemoveChannel(r, c)) <==> Exclusive(r, c)
    ensures RemoveChannel(r, c).refused == 0
  {
    var t, fd := RemoveChannel(r, c), r.slots[c].fd;
    assert SlotOk(r, c) && TableOk(r, fd) && KernelOk(r, fd);
    if Exclusive(r, c) {
      RemoveCoherent(r, c);
    } else {
      var d := r.channels[fd];
      assert t.slots[d] == r.slots[d] && fd !in t.channels;
      assert !SlotOk(t, d);
    }
  }

  // ---- Whole runs

  datatype Op<C> =
    | Create(channel: C, fd: int)
    | SetEvents(channel: C, events: Mask)
    | Remove(channel: C)

  /** The caller's part: a channel is created once, and is used only while no other channel with its descriptor
      is registered. */
  ghost predicate Allowed<C>(r: Registry<C>, op: Op<C>) {
    match op
    case Create(c, _) => c !in r.slots
    case SetEvents(c, _) => c in r.slots && Exclusive(r, c)
    case Remove(c) => c in r.slots && Exclusive(r, c)
  }

  ghost function Perform<C>(r: Registry<C>, op: Op<C>): Registry<C>
    requires Allowed(r, op)
  {
    match op
    case Create(c, fd) => Attach(r, c, fd)
    case SetEvents(c, events) => Change(r, c, events)
    case Remove(c) => RemoveChannel(r, c)
  }

  ghost predicate IsRun<C>(rs: seq<Registry<C>>, ops: seq<Op<C>>) {
    && |rs| == |ops| + 1
    && rs[0] == Registry(map[], map[], map[], 0)
    && forall i {:trigger ops[i]} | 0 <= i < |ops| :: Allowed(rs[i], ops[i]) && rs[i + 1] == Perform(rs[i], ops[i])
  }

  /** For any number of channels and any sequence of operations, table, channels and kernel stay in step and
      the kernel never refuses a call. */
  lemma {:induction false} RunCoherent<C>(rs: seq<Registry<C>>, ops: seq<Op<C>>, k: nat)
    requires IsRun(rs, ops) && k <= |ops|
    ensures Coherent(rs[k])
  {
    if k > 0 {
      RunCoherent(rs, ops, k - 1);
      var r := rs[k - 1];
      match ops[k - 1] {
        case Create(c, fd) => AttachCoherent(r, c, fd);
        case SetEvents(c, events) => ChangeCoherent(r, c, events);
        case Remove(c) => RemoveCoherent(r, c);
      }
    }
  }

  /** In any reachable registry, the descriptors in the kernel's set are exactly those of the Added channels,
      and the descriptors in the table exactly those of the Added and Deleted ones. */
  lemma {:induction false} DomainsExact<C>(rs: seq<Registry<C>>, ops: seq<Op<C>>, k: nat, fd: int)
    requires IsRun(rs, ops) && k <= |ops|
    ensures var slots := rs[k].slots;
            && (fd in rs[k].kernel <==> exists c :: c in slots && slots[c].fd == fd && slots[c].index == Added)
            && (fd in rs[k].channels <==> exists c :: c in slots && slots[c].fd == fd && slots[c].index != New)
  {
    RunCoherent(rs, ops, k);
    var r := rs[k];
    assert TableOk(r, fd) && KernelOk(r, fd);
    forall c | c in r.slots ensures SlotOk(r, c) {
    }
  }
}

/** Channels and the epoll poller that watches them. The poller's field kernel stands for the kernel's epoll set:
    only EpollCtl, which is the kernel's side of epoll_ctl, changes it, and only EpollCtl and EpollWait read it. An
    event loop, which only forwards between the two classes, is left out. */
module Reactor {
  import opened SystemCalls
  import Links
  import Registries
  import opened Dispatch
  import EventList

  class Channel {
    const poller: EPollPoller
    const fd: int
    var events: Mask
    var revents: Mask
    var index: Links.Index
    var tied: bool

    constructor (poller: EPollPoller, fd: int)
      modifies poller`known
      ensures this.poller == poller && this.fd == fd && !tied && revents == 0
      ensures poller.known == old(poller.known) + {this}
      ensures poller.View() == Registries.Attach(old(poller.View()), this, fd)
    {
      this.poller, this.fd := poller, fd;
      events, revents, index, tied := NONE_EVENT, 0, Links.New, false;
      new;
      poller.known := poller.known + {this};
    }

    ghost function Slot(): Registries.Slot
      reads this
    {
      Registries.Slot(fd, events, index)
    }

    /** Lets events pass only while the tied owner is alive. */
    method Tie()
      modifies this`tied
      ensures tied
    {
      tied := true;
    }

    method EnableReading()
      requires this in poller.known
      modifies this`events, this`index, poller`channels, poller`kernel, poller`refused
      ensures poller.View() == Registries.Change(old(poller.View()), this, old(events) | READ_EVENT)
    {
      events := events | READ_EVENT;
      poller.MaskChanged(this);
      Update();
    }

    method DisableReading()
      requires this in poller.known
      modifies this`events, this`index, poller`channels, poller`kernel, poller`refused
      ensures poller.View() == Registries.Change(old(poller.View()), this, old(events) & !READ_EVENT)
    {
      events := events & !READ_EVENT;
      poller.MaskChanged(this);
      Update();
    }

    method EnableWriting()
      requires this in poller.known
      modifies this`events, this`index, poller`channels, poller`kernel, poller`refused
      ensures poller.View() == Registries.Change(old(poller.View()), this, old(events) | WRITE_EVENT)
    {
      events := events | WRITE_EVENT;
      poller.MaskChanged(this);
      Update();
    }

    method DisableWriting()
      requires this in poller.known
      modifies this`events, this`index, poller`channels, poller`kernel, poller`refused
      ensures poller.View() == Registries.Change(old(poller.View()), this, old(events) & !WRITE_EVENT)
    {
      events := events & !WRITE_EVENT;
      poller.MaskChanged(this);
      Update();
    }

    method DisableAll()
      requires this in poller.known
      modifies this`events, this`index, poller`channels, poller`kernel, poller`refused
      ensures poller.View() == Registries.Change(old(poller.View()), this, NONE_EVENT)
    {
      events := NONE_EVENT;
      poller.MaskChanged(this);
      Update();
    }

    predicate IsNoneEvent() reads this { events == NONE_EVENT }

    predicate IsWriting() reads this { Has(events, WRITE_EVENT) }

    predicate IsReading() reads this { Has(events, READ_EVENT) }

    method Update()
      requires this in poller.known
      modifies this`index, poller`channels, poller`kernel, poller`refused
      ensures poller.View() == Registries.UpdateChannel(old(poller.View()), this)
    {
      poller.UpdateChannel(this);
    }

    method Remove()
      requires this in poller.known
      modifies this`index, poller`channels, poller`kernel, poller`refused
      ensures poller.View() == Registries.RemoveChannel(old(poller.View()), this)
    {
      poller.RemoveChannel(this);
    }

    // ---- The same calls by the owner, who has the descriptor to itself

    ghost predicate Owned()
      reads poller, poller.known
    {
      this in poller.known && Registries.Coherent(poller.View()) && Registries.Owns(poller.View(), this)
    }

    ghost function Link(): Links.Link
      reads poller, poller.known
      requires this in poller.known
    {
      Registries.LinkOf(poller.View(), this)
    }

    method StartReading()
      requires Owned()
      modifies this`events, this`index, poller`channels, poller`kernel, poller`refused
      ensures Owned() && Link() == Links.EnableReading(old(Link()))
      ensures Registries.OthersKept(old(poller.View()), poller.View(), this)
    {
      ghost var before, mask := poller.View(), events | READ_EVENT;
      EnableReading();
      Registries.OwnerExclusive(before, this);
      Registries.ChangeCoherent(before, this, mask);
    }

    method StartWriting()
      requires Owned()
      modifies this`events, this`index, poller`channels, poller`kernel, poller`refused
      ensures Owned() && Link() == Links.EnableWriting(old(Link()))
      ensures Registries.OthersKept(old(poller.View()), poller.View(), this)
    {
      ghost var before, mask := poller.View(), events | WRITE_EVENT;
      EnableWriting();
      Registries.OwnerExclusive(before, this);
      Registries.ChangeCoherent(before, this, mask);
    }

    method StopWriting()
      requires Owned()
      modifies this`events, this`index, poller`channels, poller`kernel, poller`refused
      ensures Owned() && Link() == Links.DisableWriting(old(Link()))
      ensures Registries.OthersKept(old(poller.View()), poller.View(), this)
    {
      ghost var before, mask := poller.View(), events & !WRITE_EVENT;
      DisableWriting();
      Registries.OwnerExclusive(before, this);
      Registries.ChangeCoherent(before, this, mask);
    }

    method StopAll()
      requires Owned()
      modifies this`events, this`index, poller`channels, poller`kernel, poller`refused
      ensures Owned() && Link() == Links.DisableAll(old(Link()))
      ensures Registries.OthersKept(old(poller.View()), poller.View(), this)
    {
      ghost var before, mask := poller.View(), NONE_EVENT;
      DisableAll();
      Registries.OwnerExclusive(before, this);
      Registries.ChangeCoherent(before, this, mask);
    }

    method Withdraw()
      requires Owned()
      modifies this`index, poller`channels, poller`kernel, poller`refused
      ensures Owned() && Link() == Links.Removed(old(Link()))
      ensures Registries.OthersKept(old(poller.View()), poller.View(), this)
    {
      ghost var before := poller.View();
      Remove();
      Registries.OwnerExclusive(before, this);
      Registries.RemoveCoherent(before, this);
    }

    // ---- Dispatch

    /** Runs the callbacks for the reported events; calls lists them in the order they are run. */
    method HandleEvent(ownerAlive: bool) returns (calls: seq<Handler>)
      ensures calls == if !tied || ownerAlive then Handlers(revents) else []
    {
      if tied {
        if ownerAlive {
          calls := HandleEventWithGuard();
        } else {
          calls := [];
        }
      } else {
        calls := HandleEventWithGuard();
      }
    }

    method HandleEventWithGuard() returns (calls: seq<Handler>)
      ensures calls == Handlers(revents)
    {
      calls := [];
      if Has(revents, EPOLLHUP) && !Has(revents, EPOLLIN) {
        calls := calls + [OnClose];
      }
      if Has(revents, EPOLLERR) {
        calls := calls + [OnError];
      }
      if Has(revents, EPOLLIN | EPOLLPRI) {
        calls := calls + [OnRead];
      }
      if Has(revents, EPOLLOUT) {
        calls := calls + [OnWrite];
      }
    }
  }

  /** One element of the event list that epoll_wait fills. */
  datatype EpollEvent = EpollEvent(events: Mask, channel: Channel?)

  /** A ready descriptor and the events epoll_wait reports for it. */
  datatype Ready = Ready(fd: int, revents: Mask)

  class EPollPoller {
    var channels: map<int, Channel>
    var events: seq<EpollEvent>
    var kernel: map<int, Registries.Entry<Channel>>
    ghost var refused: nat
    ghost var known: set<Channel>   // every channel made for this poller

    constructor ()
      ensures View() == Registries.Registry(map[], map[], map[], 0) && known == {}
      ensures |events| == EventList.INITIAL_EVENTS
    {
      channels, kernel, refused, known := map[], map[], 0, {};
      events := seq(EventList.INITIAL_EVENTS, _ => EpollEvent(0, null));
    }

    ghost function View(): Registries.Registry<Channel>
      reads this, known
    {
      Registries.Registry(map c | c in known :: c.Slot(), channels, kernel, refused)
    }

    /** Setting a channel's mask changes that channel's slot and nothing else the registry holds. */
    twostate lemma MaskChanged(channel: Channel)
      requires channel in known && known == old(known)
      requires unchanged(this) && unchanged(channel`index) && unchanged(known - {channel})
      ensures var slot := old(channel.Slot()).(events := channel.events);
              View() == old(View()).(slots := old(View()).slots[channel := slot])
    {
      assert View().slots == old(View()).slots[channel := old(channel.Slot()).(events := channel.events)];
    }

    method UpdateChannel(channel: Channel)
      requires channel in known
      modifies this`channels, this`kernel, this`refused, channel`index
      ensures View() == Registries.UpdateChannel(old(View()), channel)
    {
      if channel.index == Links.New || channel.index == Links.Deleted {
        if channel.index == Links.New {
          channels := channels[channel.fd := channel];
        }
        channel.index := Links.Added;
        EpollCtl(Registries.Add, channel);
      } else {
        if channel.IsNoneEvent() {
          EpollCtl(Registries.Del, channel);
          channel.index := Links.Deleted;
        } else {
          EpollCtl(Registries.Mod, channel);
        }
      }
      assert View().slots == Registries.UpdateChannel(old(View()), channel).slots;
    }

    method RemoveChannel(channel: Channel)
      requires channel in known
      modifies this`channels, this`kernel, this`refused, channel`index
      ensures View() == Registries.RemoveChannel(old(View()), channel)
    {
      channels := channels - {channel.fd};
      if channel.index == Links.Added {
        EpollCtl(Registries.Del, channel);
      }
      channel.index := Links.New;
      assert View().slots == Registries.RemoveChannel(old(View()), channel).slots;
    }

    /** The kernel's side of a control call. */
    method EpollCtl(op: Registries.CtlOp, channel: Channel)
      requires channel in known
      modifies this`kernel, this`refused
      ensures View() == Registries.EpollCtl(old(View()), op, channel)
    {
      if (channel.fd in kernel) == op.Add? {
        refused := refused + 1;
      } else if op.Del? {
        kernel := kernel - {channel.fd};
      } else {
        kernel := kernel[channel.fd := Registries.Entry(channel.events, channel)];
      }
    }

    /** epoll_wait's contract: distinct watched descriptors, no more of them than the list holds, and only
        events that can be reported for each. */
    ghost predicate Waited(ready: seq<Ready>)
      reads this
    {
      && |ready| <= |events|
      && (forall i | 0 <= i < |ready| ::
            ready[i].fd in kernel && Reportable(ready[i].revents, kernel[ready[i].fd].mask))
      && (forall i, j | 0 <= i < j < |ready| :: ready[i].fd != ready[j].fd)
    }

    /** The front of the event list answers the ready descriptors: each entry points to the watched channel
        that the table holds for its descriptor. */
    ghost predicate Listed(ready: seq<Ready>)
      reads this, known
    {
      && |ready| <= |events|
      && forall i | 0 <= i < |ready| :: ListedAt(ready, i)
    }

    ghost predicate ListedAt(ready: seq<Ready>, i: nat)
      requires i < |ready| && i < |events|
      reads this, known
    {
      && events[i].events == ready[i].revents
      && events[i].channel in known
      && (var c: Channel := events[i].channel;
          ready[i].fd in channels && channels[ready[i].fd] == c && c.fd == ready[i].fd && c.index == Links.Added)
    }

    /** The kernel's side of a wait: it fills the front of the event list. */
    method EpollWait(ready: seq<Ready>)
      requires Registries.Coherent(View()) && Waited(ready)
      modifies this`events
      ensures |events| == old(|events|) && Listed(ready)
    {
      var filled: seq<EpollEvent> := [];
      for i := 0 to |ready|
        invariant |filled| == i && unchanged(this)
        invariant forall j | 0 <= j < i :: filled[j] == EpollEvent(ready[j].revents, kernel[ready[j].fd].channel)
      {
        filled := filled + [EpollEvent(ready[i].revents, kernel[ready[i].fd].channel)];
      }
      events := filled + events[|ready|..];
      assert View() == old(View());
      forall i | 0 <= i < |ready| ensures ListedAt(ready, i) {
        WatchedChannel(ready[i].fd);
      }
    }

    /** The channels found by a poll: for each ready descriptor the channel the table holds for it, which is
        watched and carries the events reported for it. */
    ghost predicate Delivered(ready: seq<Ready>, found: seq<Channel>)
      reads this, found
    {
      && |found| == |ready|
      && forall i | 0 <= i < |ready| ::
           && ready[i].fd in channels && found[i] == channels[ready[i].fd] && found[i].fd == ready[i].fd
           && found[i].index == Links.Added && found[i].revents == ready[i].revents
    }

    /** A reported descriptor's entry leads to the channel in the table, whose descriptor it is. */
    lemma WatchedChannel(fd: int)
      requires Registries.Coherent(View()) && fd in kernel
      ensures fd in channels && channels[fd] == kernel[fd].channel
      ensures channels[fd] in known && channels[fd].fd == fd && channels[fd].index == Links.Added
    {
      assert Registries.KernelOk(View(), fd) && Registries.TableOk(View(), fd);
      assert Registries.SlotOk(View(), channels[fd]);
    }

    /** One poll: every ready descriptor's channel is appended to the active list, once. None stands for a
        failed wait. */
    method Poll(wait: Option<seq<Ready>>, before: seq<Channel>)
      returns (active: seq<Channel>, ghost found: seq<Channel>)
      requires Registries.Coherent(View())
      requires wait.Some? ==> Waited(wait.value)
      modifies this`events, known`revents
      ensures View() == old(View()) && active == before + found
      ensures wait.None? ==> found == [] && events == old(events)
      ensures wait.Some? ==> Delivered(wait.value, found)
      ensures forall i, j | 0 <= i < j < |found| :: found[i] != found[j]
      ensures forall c | c in known && c !in found :: c.revents == old(c.revents)
      ensures wait.Some? ==> |events| == EventList.NextCapacity(old(|events|), |wait.value|)
    {
      active, found := before, [];
      if wait.Some? {
        EpollWait(wait.value);
        var numEvents := |wait.value|;
        if numEvents > 0 {
          active, found := FillActiveChannels(wait.value, numEvents, before);
          if numEvents == |events| {
            events := events + seq(|events|, _ => EpollEvent(0, null));
          }
        }
      }
    }

    method FillActiveChannels(ghost ready: seq<Ready>, numEvents: nat, before: seq<Channel>)
      returns (active: seq<Channel>, ghost found: seq<Channel>)
      requires Listed(ready) && numEvents == |ready|
      requires forall i, j | 0 <= i < j < |ready| :: ready[i].fd != ready[j].fd
      modifies known`revents
      ensures active == before + found && Delivered(ready, found)
      ensures forall i, j | 0 <= i < j < |found| :: found[i] != found[j]
      ensures forall c | c in known && c !in found :: c.revents == old(c.revents)
      ensures View() == old(View())
    {
      active, found := before, [];
      assert forall i | 0 <= i < numEvents :: ListedAt(ready, i);
      for i := 0 to numEvents
        invariant unchanged(this) && (forall c | c in known :: c.index == old(c.index))
        invariant active == before + found && |found| == i
        invariant forall j | 0 <= j < i :: found[j] == events[j].channel && found[j].revents == events[j].events
        invariant forall c | c in known && c !in found :: c.revents == old(c.revents)
      {
        assert old(ListedAt(ready, i));
        var channel: Channel := events[i].channel;
        forall j | 0 <= j < i ensures found[j] != channel {
          assert old(ListedAt(ready, j));
        }
        channel.revents := events[i].events;
        active, found := active + [channel], found + [channel];
      }
      forall i | 0 <= i < numEvents
        ensures ready[i].fd in channels && found[i] == channels[ready[i].fd] && found[i].fd == ready[i].fd
        ensures found[i].index == Links.Added && found[i].revents == ready[i].revents
      {
        assert old(ListedAt(ready, i));
      }
    }
  }
}

/** The connection object over its real parts: a channel watched by a poller, two buffers, and its loop's queue.
    View gives its value; every method is proved to do to the value what ConnectionSpec says. */
module TcpConnections {
  import opened SystemCalls
  import Links
  import Registries
  import opened Dispatch
  import opened Reactor
  import BufferLayout
  import opened Buffers
  import opened ConnectionSpec
  import ConnectionMachine

  /** The connection's part of its loop's task queue. */
  class TaskQueue {
    var pending: seq<Task>

    constructor ()
      ensures pending == []
    {
      pending := [];
    }

    method QueueInLoop(t: Task)
      modifies this
      ensures pending == old(pending) + [t]
    {
      pending := pending + [t];
    }

    method TakeFirst() returns (t: Task)
      requires pending != []
      modifies this
      ensures t == old(pending[0]) && pending == old(pending[1..])
    {
      t := pending[0];
      pending := pending[1..];
    }
  }

  const DEFAULT_MARK: nat := 64 * 1024 * 1024

  /** The input buffer's layout after a read. */
  function Refilled(l: BufferLayout.Layout, r: ReadResult): BufferLayout.Layout
    requires l.Valid()
  {
    if r.Received? then BufferLayout.Filled(l, |r.bytes|) else l
  }

  class TcpConnection {
    const loop: TaskQueue
    const channel: Channel
    const inputBuffer: Buffer
    const outputBuffer: Buffer
    var state: State
    var onWriteComplete: bool
    var onHighWater: bool
    var highWaterMark: nat
    var requests: nat            // how many file requests have been taken on: it numbers their loop tasks
    ghost var history: History   // a record for the specification

    ghost predicate Valid()
      reads this, channel, channel.poller, channel.poller.known, inputBuffer, outputBuffer
    {
      && inputBuffer != outputBuffer && inputBuffer.buffer != outputBuffer.buffer
      && inputBuffer.Valid() && outputBuffer.Valid()
      && channel.Owned()
      && requests == |history.requests|
      && (history.ups > 0 ==> channel.tied)
    }

    ghost function Link(): Links.Link
      reads channel.poller, channel.poller.known
      requires channel in channel.poller.known
    {
      channel.Link()
    }

    /** The poller's table and the kernel's set, with the slots of all channels. */
    ghost function Registry(): Registries.Registry<Channel>
      reads channel.poller, channel.poller.known
    {
      channel.poller.View()
    }

    ghost function View(): Conn
      reads this, loop, channel, channel.poller, channel.poller.known
      reads inputBuffer, inputBuffer.buffer, outputBuffer, outputBuffer.buffer
      requires Valid()
    {
      Conn(state, Link(), outputBuffer.Contents(), inputBuffer.Contents(), loop.pending,
           onWriteComplete, onHighWater, highWaterMark, history)
    }

    constructor (poller: EPollPoller, loop: TaskQueue, fd: int)
      requires Registries.Coherent(poller.View())
      requires forall c | c in poller.known && c.fd == fd :: c.index == Links.New
      requires loop.pending == []
      modifies poller`known
      ensures Valid() && fresh(channel) && fresh(inputBuffer) && fresh(outputBuffer)
      ensures channel.poller == poller && this.loop == loop && channel.fd == fd
      ensures poller.known == old(poller.known) + {channel}
      ensures Registry() == Registries.Attach(old(poller.View()), channel, fd)
      ensures IsNew(View()) && !onWriteComplete && !onHighWater && highWaterMark == 0x400_0000
      ensures inputBuffer.Shape() == outputBuffer.Shape() == BufferLayout.Layout(1032, 8, 8)
    {
      this.loop := loop;
      ghost var before := poller.View();
      var made := new Channel(poller, fd);
      Registries.AttachCoherent(before, made, fd);
      var input := new Buffer();
      var output := new Buffer();
      channel, inputBuffer, outputBuffer := made, input, output;
      state := Connecting;
      onWriteComplete, onHighWater, highWaterMark := false, false, DEFAULT_MARK;
      requests, history := 0, History([], [], [], 0, 0, false, false);
      new;
    }

    method SetWriteCompleteCallback(on: bool)
      requires Valid()
      modifies this`onWriteComplete
      ensures Valid() && View() == old(View()).(onWriteComplete := on)
    {
      onWriteComplete := on;
    }

    method SetHighWaterMarkCallback(on: bool, mark: nat)
      requires Valid()
      modifies this`onHighWater, this`highWaterMark
      ensures Valid() && View() == old(View()).(onHighWater := on, mark := mark)
    {
      onHighWater, highWaterMark := on, mark;
    }

    predicate IsConnected()
      reads this
    {
      state == Connected
    }

    // ---- Connections side by side

    /** Two connections on one poller that share neither a descriptor nor an object. */
    ghost predicate Apart(that: TcpConnection)
      reads this, inputBuffer, outputBuffer, that, that.inputBuffer, that.outputBuffer
    {
      && that != this && that.channel != channel && that.channel.fd != channel.fd
      && that.channel.poller == channel.poller && that.loop != loop
      && that.inputBuffer != inputBuffer && that.inputBuffer != outputBuffer
      && that.outputBuffer != inputBuffer && that.outputBuffer != outputBuffer
      && that.inputBuffer.buffer != inputBuffer.buffer && that.inputBuffer.buffer != outputBuffer.buffer
      && that.outputBuffer.buffer != inputBuffer.buffer && that.outputBuffer.buffer != outputBuffer.buffer
    }

    /** A connection stays valid and as it is when another channel's change leaves its own objects alone. */
    twostate lemma StaysBeside(changed: Channel)
      requires old(Valid()) && channel.poller.known == old(channel.poller.known) && changed in channel.poller.known
      requires changed != channel && changed.poller == channel.poller && changed.fd != channel.fd
      requires unchanged(this) && unchanged(loop) && unchanged(inputBuffer) && unchanged(inputBuffer.buffer)
      requires unchanged(outputBuffer) && unchanged(outputBuffer.buffer) && unchanged(channel`tied)
      requires Registries.Coherent(Registry()) && Registries.OthersKept(old(Registry()), Registry(), changed)
      ensures Valid() && View() == old(View())
    {
      ghost var was, now := old(Registry()), Registry();
      assert Registries.Kept(was, now, channel);
      forall d | d in now.slots ensures Registries.NoRival(now, channel, d) {
        assert Registries.NoRival(was, channel, d);
        if d != changed {
          assert Registries.Kept(was, now, d);
        }
      }
    }

    /** Nor is it touched when another connection is made on its poller. */
    twostate lemma StaysBesideNew(new made: Channel)
      requires old(Valid()) && made !in old(channel.poller.known)
      requires unchanged(this) && unchanged(loop) && unchanged(inputBuffer) && unchanged(inputBuffer.buffer)
      requires unchanged(outputBuffer) && unchanged(outputBuffer.buffer) && unchanged(channel`tied)
      requires channel in channel.poller.known
      requires Registry() == Registries.Attach(old(Registry()), made, made.fd)
      ensures Valid() && View() == old(View())
    {
      ghost var was, now := old(Registry()), Registry();
      Registries.AttachCoherent(was, made, made.fd);
      assert Registries.Kept(was, now, channel);
      forall d | d in now.slots ensures Registries.NoRival(now, channel, d) {
        if d != made {
          assert Registries.NoRival(was, channel, d);
        }
      }
    }

    // ---- The channel, as the connection sees it

    method EnableReading()
      requires Valid()
      modifies channel`events, channel`index, channel.poller`channels, channel.poller`kernel, channel.poller`refused
      ensures Valid() && View() == old(View()).(link := Links.EnableReading(old(Link())))
      ensures Registries.OthersKept(old(Registry()), Registry(), channel)
    {
      channel.StartReading();
    }

    method EnableWriting()
      requires Valid()
      modifies channel`events, channel`index, channel.poller`channels, channel.poller`kernel, channel.poller`refused
      ensures Valid() && View() == old(View()).(link := Links.EnableWriting(old(Link())))
      ensures Registries.OthersKept(old(Registry()), Registry(), channel)
    {
      channel.StartWriting();
    }

    method DisableWriting()
      requires Valid()
      modifies channel`events, channel`index, channel.poller`channels, channel.poller`kernel, channel.poller`refused
      ensures Valid() && View() == old(View()).(link := Links.DisableWriting(old(Link())))
      ensures Registries.OthersKept(old(Registry()), Registry(), channel)
    {
      channel.StopWriting();
    }

    method DisableAll()
      requires Valid()
      modifies channel`events, channel`index, channel.poller`channels, channel.poller`kernel, channel.poller`refused
      ensures Valid() && View() == old(View()).(link := Links.DisableAll(old(Link())))
      ensures Registries.OthersKept(old(Registry()), Registry(), channel)
    {
      channel.StopAll();
    }

    method Remove()
      requires Valid()
      modifies channel`index, channel.poller`channels, channel.poller`kernel, channel.poller`refused
      ensures Valid() && View() == old(View()).(link := Links.Removed(old(Link())))
      ensures Registries.OthersKept(old(Registry()), Registry(), channel)
    {
      channel.Withdraw();
    }

    // ---- Recording

    method Emit(ghost events: seq<WireEvent>)
      requires Valid()
      modifies this`history
      ensures Valid() && View() == ConnectionSpec.Emit(old(View()), events)
      ensures Registry() == old(Registry())
    {
      Record(history.(wire := history.wire + events));
    }

    method SetState(s: State)
      requires Valid()
      modifies this`state
      ensures Valid() && View() == old(View()).(state := s)
      ensures Registry() == old(Registry())
    {
      state := s;
    }

    ghost method Record(h: History)
      requires Valid() && |h.requests| == requests && (h.ups > 0 ==> channel.tied)
      modifies this`history
      ensures Valid() && View() == old(View()).(h := h)
      ensures Registry() == old(Registry())
    {
      history := h;
    }

    method Queue(t: Task)
      requires Valid()
      modifies loop
      ensures Valid() && View() == QueueTask(old(View()), t)
      ensures Registry() == old(Registry())
    {
      loop.QueueInLoop(t);
    }

    method QueueNote(note: Note)
      requires Valid()
      modifies this`history, loop
      ensures Valid() && View() == ConnectionSpec.QueueNote(old(View()), note)
      ensures Registry() == old(Registry())
    {
      Queue(Notify(note));
      Record(history.(notes := history.notes + [note]));
    }

    method QueueWriteComplete()
      requires Valid()
      modifies this`history, loop
      ensures Valid() && View() == ConnectionSpec.QueueWriteComplete(old(View()))
      ensures Registry() == old(Registry())
    {
      if onWriteComplete {
        QueueNote(WriteComplete);
      }
    }

    // ---- Sending

    /** send; io is the kernel's answer should the payload go straight to the socket. From another thread the
        task is queued. */
    method Send(data: seq<char>, inLoopThread: bool, io: IoResult)
      requires Valid() && Fits(io, |data|)
      modifies this`history, loop, outputBuffer, outputBuffer.buffer
      modifies channel`events, channel`index, channel.poller`channels, channel.poller`kernel, channel.poller`refused
      ensures Valid() && (outputBuffer.buffer == old(outputBuffer.buffer) || fresh(outputBuffer.buffer))
      ensures View() == if inLoopThread then ConnectionSpec.Send(old(View()), data, io)
                        else if old(state) == Connected then QueueTask(old(View()), RunSend(data)) else old(View())
      ensures Registries.OthersKept(old(Registry()), Registry(), channel)
    {
      if state == Connected {
        if inLoopThread {
          SendInLoop(data, io);
        } else {
          Queue(RunSend(data));
        }
      }
    }

    method SendInLoop(data: seq<char>, io: IoResult)
      requires Valid() && Fits(io, |data|)
      modifies this`history, loop, outputBuffer, outputBuffer.buffer
      modifies channel`events, channel`index, channel.poller`channels, channel.poller`kernel, channel.poller`refused
      ensures Valid() && (outputBuffer.buffer == old(outputBuffer.buffer) || fresh(outputBuffer.buffer))
      ensures View() == ConnectionSpec.SendInLoop(old(View()), data, io)
      ensures Registries.OthersKept(old(Registry()), Registry(), channel)
    {
      var nwrote := 0;
      var faultError := false;
      if !channel.IsWriting() && outputBuffer.ReadableBytes() == 0 {
        assert Direct(View());
        nwrote, faultError := TrySend(data, io);
      }
      if !faultError && nwrote < |data| {
        KeepForLater(data[nwrote..]);
      }
    }

    /** The direct write: how much of the payload went out, and whether the socket is broken. */
    method TrySend(data: seq<char>, io: IoResult) returns (nwrote: nat, faultError: bool)
      requires Valid() && Fits(io, |data|)
      modifies this`history, loop
      ensures Valid() && Registry() == old(Registry()) && (io.Failed? ==> View() == old(View()))
      ensures io.Wrote? ==>
                var sent := ConnectionSpec.Emit(old(View()), SendBytes(data[..io.n]));
                View() == if io.n == |data| then ConnectionSpec.QueueWriteComplete(sent) else sent
      ensures nwrote == (if io.Wrote? then io.n else 0) && faultError == IsFault(io)
    {
      nwrote, faultError := 0, false;
      if io.Wrote? {
        nwrote := io.n;
        WroteDirectly(SendBytes(data[..nwrote]), |data| - nwrote);
      } else {
        if io.errno != WouldBlock {
          if io.errno == BrokenPipe || io.errno == ConnectionReset {
            faultError := true;
          }
        }
      }
    }

    /** The kernel has taken bytes without their being buffered first; if none remain, the send is complete. */
    method WroteDirectly(ghost events: seq<WireEvent>, remaining: nat)
      requires Valid()
      modifies this`history, loop
      ensures Valid()
      ensures var sent := ConnectionSpec.Emit(old(View()), events);
              View() == if remaining == 0 then ConnectionSpec.QueueWriteComplete(sent) else sent
      ensures Registry() == old(Registry())
    {
      Emit(events);
      if remaining == 0 {
        QueueWriteComplete();
      }
    }

    /** The rest of a payload goes to the output buffer, with the high-water check before it. */
    method KeepForLater(rest: seq<char>)
      requires Valid()
      modifies this`history, loop, outputBuffer, outputBuffer.buffer
      modifies channel`events, channel`index, channel.poller`channels, channel.poller`kernel, channel.poller`refused
      ensures Valid() && (outputBuffer.buffer == old(outputBuffer.buffer) || fresh(outputBuffer.buffer))
      ensures View() == Buffered(old(View()), rest)
      ensures Registries.OthersKept(old(Registry()), Registry(), channel)
    {
      CheckHighWater(|rest|);
      AppendAndWatch(rest);
    }

    method AppendAndWatch(rest: seq<char>)
      requires Valid()
      modifies outputBuffer, outputBuffer.buffer
      modifies channel`events, channel`index, channel.poller`channels, channel.poller`kernel, channel.poller`refused
      ensures Valid() && (outputBuffer.buffer == old(outputBuffer.buffer) || fresh(outputBuffer.buffer))
      ensures View() == Waiting(old(View()), rest)
      ensures Registries.OthersKept(old(Registry()), Registry(), channel)
    {
      AppendOutput(rest);
      WatchWriting();
    }

    method CheckHighWater(remaining: nat)
      requires Valid()
      modifies this`history, loop
      ensures Valid()
      ensures View() == Noted(old(View()), remaining)
      ensures Registry() == old(Registry())
    {
      var oldLen := outputBuffer.ReadableBytes();
      if oldLen + remaining >= highWaterMark && oldLen < highWaterMark && onHighWater {
        QueueNote(HighWater(oldLen + remaining));
      }
    }

    method WatchWriting()
      requires Valid()
      modifies channel`events, channel`index, channel.poller`channels, channel.poller`kernel, channel.poller`refused
      ensures Valid()
      ensures var was := old(View());
              View() == was.(link := if Links.IsWriting(was.link) then was.link else Links.EnableWriting(was.link))
      ensures Registries.OthersKept(old(Registry()), Registry(), channel)
    {
      if !channel.IsWriting() {
        EnableWriting();
      }
    }

    method AppendOutput(rest: seq<char>)
      requires Valid()
      modifies outputBuffer, outputBuffer.buffer
      ensures Valid() && (outputBuffer.buffer == old(outputBuffer.buffer) || fresh(outputBuffer.buffer))
      ensures View() == old(View()).(out := old(View()).out + rest)
      ensures Registry() == old(Registry())
    {
      outputBuffer.Append(rest);
    }

    // ---- Shutting the write side down

    method Shutdown(inLoopThread: bool)
      requires Valid()
      modifies this`state, this`history, loop
      ensures Valid()
      ensures View() == if inLoopThread then ConnectionSpec.Shutdown(old(View()))
                        else if old(state) == Connected
                        then QueueTask(old(View()).(state := Disconnecting), RunShutdown) else old(View())
      ensures Registry() == old(Registry())
    {
      if state == Connected {
        SetState(Disconnecting);
        if inLoopThread {
          ShutdownInLoop();
        } else {
          Queue(RunShutdown);
        }
      }
    }

    method ShutdownInLoop()
      requires Valid()
      modifies this`history
      ensures Valid() && View() == ConnectionSpec.ShutdownInLoop(old(View()))
      ensures Registry() == old(Registry())
    {
      if !channel.IsWriting() {
        Emit([Fin]);
      }
    }

    // ---- The channel's callbacks

    /** One callback of a dispatched event; read and io are the kernel's answers should it read or write. */
    method RunHandler(h: Handler, read: ReadResult, io: IoResult)
      requires Valid() && Fits(io, outputBuffer.ReadableBytes())
      requires h.OnRead? && read.Received? ==> |read.bytes| <= BufferLayout.Offered(inputBuffer.Shape())
      modifies this`state, this`history, loop, inputBuffer, inputBuffer.buffer
      modifies outputBuffer`readerIndex, outputBuffer`writerIndex
      modifies channel`events, channel`index, channel.poller`channels, channel.poller`kernel, channel.poller`refused
      ensures Valid() && (inputBuffer.buffer == old(inputBuffer.buffer) || fresh(inputBuffer.buffer))
      ensures View() == ConnectionMachine.RunHandler(old(View()), h, read, io)
      ensures inputBuffer.Shape() == if h.OnRead? then Refilled(old(inputBuffer.Shape()), read)
                                     else old(inputBuffer.Shape())
      ensures Registries.OthersKept(old(Registry()), Registry(), channel)
    {
      match h
      case OnClose => HandleClose();
      case OnError =>
      case OnRead => var message := HandleRead(read);
      case OnWrite => HandleWrite(io);
    }

    /** message tells whether the message callback is run. */
    method HandleRead(r: ReadResult) returns (message: bool)
      requires Valid() && (r.Received? ==> |r.bytes| <= BufferLayout.Offered(inputBuffer.Shape()))
      modifies this`state, this`history, inputBuffer, inputBuffer.buffer
      modifies channel`events, channel`index, channel.poller`channels, channel.poller`kernel, channel.poller`refused
      ensures Valid() && (inputBuffer.buffer == old(inputBuffer.buffer) || fresh(inputBuffer.buffer))
      ensures View() == ConnectionSpec.HandleRead(old(View()), r)
      ensures message <==> r.Received? && r.bytes != []
      ensures inputBuffer.Shape() == Refilled(old(inputBuffer.Shape()), r)
      ensures Registries.OthersKept(old(Registry()), Registry(), channel)
    {
      var n := ReadInput(r);
      message := n > 0;
      if n == 0 {
        HandleClose();
      }
    }

    method ReadInput(r: ReadResult) returns (n: int)
      requires Valid() && (r.Received? ==> |r.bytes| <= BufferLayout.Offered(inputBuffer.Shape()))
      modifies inputBuffer, inputBuffer.buffer
      ensures Valid() && (inputBuffer.buffer == old(inputBuffer.buffer) || fresh(inputBuffer.buffer))
      ensures n == (if r.Received? then |r.bytes| else -1)
      ensures inputBuffer.Shape() == Refilled(old(inputBuffer.Shape()), r)
      ensures n <= 0 ==> View() == old(View())
      ensures n > 0 ==> View() == old(View()).(input := old(View()).input + r.bytes)
      ensures Registry() == old(Registry())
    {
      n := inputBuffer.ReadFd(r);
    }

    method HandleWrite(io: IoResult)
      requires Valid() && Fits(io, outputBuffer.ReadableBytes())
      modifies this`history, loop, outputBuffer`readerIndex, outputBuffer`writerIndex
      modifies channel`events, channel`index, channel.poller`channels, channel.poller`kernel, channel.poller`refused
      ensures Valid() && View() == ConnectionSpec.HandleWrite(old(View()), io)
      ensures Registries.OthersKept(old(Registry()), Registry(), channel)
    {
      if channel.IsWriting() {
        WriteWaiting(io);
      }
    }

    /** One write of the waiting bytes, with write interest on. */
    method WriteWaiting(io: IoResult)
      requires Valid() && Fits(io, outputBuffer.ReadableBytes()) && Links.IsWriting(View().link)
      modifies this`history, loop, outputBuffer`readerIndex, outputBuffer`writerIndex
      modifies channel`events, channel`index, channel.poller`channels, channel.poller`kernel, channel.poller`refused
      ensures Valid() && View() == ConnectionSpec.HandleWrite(old(View()), io)
      ensures Registries.OthersKept(old(Registry()), Registry(), channel)
    {
      ghost var taken;
      var n;
      n, taken := WriteOutput(io);
      if n > 0 {
        OutputWritten(n, taken);
      }
    }

    method OutputWritten(n: nat, ghost taken: seq<char>)
      requires Valid() && n <= |View().out| && taken == View().out[..n]
      modifies this`history, loop, outputBuffer`readerIndex, outputBuffer`writerIndex
      modifies channel`events, channel`index, channel.poller`channels, channel.poller`kernel, channel.poller`refused
      ensures Valid()
      ensures View() == Written(old(View()), n)
      ensures Registries.OthersKept(old(Registry()), Registry(), channel)
    {
      Emit(SendBytes(taken));
      var empty := RetrieveOutput(n);
      if empty {
        OutputDrained();
      }
    }

    /** Hands the output buffer to the kernel, which takes the first n bytes of it. */
    method WriteOutput(io: IoResult) returns (n: int, ghost taken: seq<char>)
      requires Valid() && Fits(io, outputBuffer.ReadableBytes())
      ensures n == (if io.Wrote? then io.n else -1) && n <= |View().out|
      ensures n > 0 ==> taken == View().out[..n]
    {
      n, taken := outputBuffer.WriteFd(io);
    }

    method RetrieveOutput(n: nat) returns (empty: bool)
      requires Valid() && n <= |View().out|
      modifies outputBuffer`readerIndex, outputBuffer`writerIndex
      ensures Valid() && View() == old(View()).(out := old(View()).out[n..])
      ensures empty <==> n == |old(View()).out|
      ensures Registry() == old(Registry())
    {
      ghost var was := View();
      outputBuffer.Retrieve(n);
      assert outputBuffer.Contents() == was.out[n..] && inputBuffer.Contents() == was.input;
      empty := outputBuffer.ReadableBytes() == 0;
    }

    method OutputDrained()
      requires Valid()
      modifies this`history, loop
      modifies channel`events, channel`index, channel.poller`channels, channel.poller`kernel, channel.poller`refused
      ensures Valid() && View() == Drained(old(View()))
      ensures Registries.OthersKept(old(Registry()), Registry(), channel)
    {
      DisableWriting();
      QueueWriteComplete();
      if state == Disconnecting {
        ShutdownInLoop();
      }
    }

    method HandleClose()
      requires Valid()
      modifies this`state, this`history
      modifies channel`events, channel`index, channel.poller`channels, channel.poller`kernel, channel.poller`refused
      ensures Valid() && View() == ConnectionSpec.HandleClose(old(View()))
      ensures Registries.OthersKept(old(Registry()), Registry(), channel)
    {
      SetState(Disconnected);
      DisableAll();
      Record(history.(downs := history.downs + 1, closed := true));
    }

    // ---- Coming up and going away

    method ConnectEstablished()
      requires Valid()
      modifies this`state, this`history, channel`tied
      modifies channel`events, channel`index, channel.poller`channels, channel.poller`kernel, channel.poller`refused
      ensures Valid() && View() == ConnectionSpec.ConnectEstablished(old(View())) && channel.tied
      ensures Registries.OthersKept(old(Registry()), Registry(), channel)
    {
      SetState(Connected);
      Tie();
      ComeUp();
    }

    method ComeUp()
      requires Valid() && channel.tied
      modifies this`history
      modifies channel`events, channel`index, channel.poller`channels, channel.poller`kernel, channel.poller`refused
      ensures Valid()
      ensures var was := old(View());
              View() == was.(link := Links.EnableReading(was.link), h := was.h.(ups := was.h.ups + 1))
      ensures Registries.OthersKept(old(Registry()), Registry(), channel)
    {
      EnableReading();
      Record(history.(ups := history.ups + 1));
    }

    method Tie()
      requires Valid()
      modifies channel`tied
      ensures Valid() && View() == old(View()) && channel.tied && Registry() == old(Registry())
    {
      channel.Tie();
      assert Registry() == old(Registry());
    }

    method ConnectDestroyed()
      requires Valid()
      modifies this`state, this`history
      modifies channel`events, channel`index, channel.poller`channels, channel.poller`kernel, channel.poller`refused
      ensures Valid() && View() == ConnectionSpec.ConnectDestroyed(old(View()))
      ensures Registries.OthersKept(old(Registry()), Registry(), channel)
    {
      if state == Connected {
        GoDown();
      }
      ghost var down := Registry();
      GoAway();
      Registries.OthersKeptTwice(old(Registry()), down, Registry(), channel);
    }

    method GoAway()
      requires Valid()
      modifies this`history
      modifies channel`events, channel`index, channel.poller`channels, channel.poller`kernel, channel.poller`refused
      ensures Valid()
      ensures var was := old(View());
              View() == was.(link := Links.Removed(was.link), h := was.h.(destroyed := true))
      ensures Registries.OthersKept(old(Registry()), Registry(), channel)
    {
      Remove();
      Record(history.(destroyed := true));
    }

    method GoDown()
      requires Valid()
      modifies this`state, this`history
      modifies channel`events, channel`index, channel.poller`channels, channel.poller`kernel, channel.poller`refused
      ensures Valid()
      ensures var was := old(View());
              View() == was.(state := Disconnected, link := Links.DisableAll(was.link),
                             h := was.h.(downs := was.h.downs + 1))
      ensures Registries.OthersKept(old(Registry()), Registry(), channel)
    {
      SetState(Disconnected);
      DisableAll();
      Record(history.(downs := history.downs + 1));
    }

    // ---- Files

    method SendFile(offset: int, count: nat, inLoopThread: bool, io: IoResult)
      requires Valid() && Fits(io, count)
      modifies this`requests, this`history, loop
      ensures Valid() && Registry() == old(Registry())
      ensures View() == if inLoopThread then ConnectionSpec.SendFile(old(View()), offset, count, io)
                        else if old(state) == Connected
                        then QueueTask(Request(old(View()), offset, count), RunSendFile(old(requests), offset, count))
                        else old(View())
    {
      if IsConnected() {
        var req := TakeOn(offset, count);
        if inLoopThread {
          SendFileInLoop(req, offset, count, io);
        } else {
          Queue(RunSendFile(req, offset, count));
        }
      }
    }

    /** Gives a file request its number, which only the specification has a use for. */
    method TakeOn(offset: int, count: nat) returns (req: nat)
      requires Valid()
      modifies this`requests, this`history
      ensures Valid() && Registry() == old(Registry())
      ensures View() == Request(old(View()), offset, count) && req == |old(View()).h.requests| == old(requests)
    {
      req := requests;
      requests := requests + 1;
      history := history.(requests := history.requests + [FileRequest(offset, count)]);
    }

    method SendFileInLoop(req: nat, offset: int, count: nat, io: IoResult)
      requires Valid() && Fits(io, count)
      modifies this`history, loop
      ensures Valid() && View() == ConnectionSpec.SendFileInLoop(old(View()), req, offset, count, io)
      ensures Registry() == old(Registry())
    {
      if state == Disconnecting {
        return;
      }
      if !channel.IsWriting() && outputBuffer.ReadableBytes() == 0 {
        assert Direct(View());
        AttemptFile(req, offset, count, io);
      } else {
        RequeueIfAny(req, offset, count);
      }
    }

    /** An attempt with nothing waiting to be written. */
    method AttemptFile(req: nat, offset: int, count: nat, io: IoResult)
      requires Valid() && Fits(io, count) && state != Disconnecting && Direct(View())
      modifies this`history, loop
      ensures Valid() && View() == ConnectionSpec.SendFileInLoop(old(View()), req, offset, count, io)
      ensures Registry() == old(Registry())
    {
      var next, remaining, faultError := TrySendFile(req, offset, count, io);
      if !faultError {
        RequeueIfAny(req, next, remaining);
      }
    }

    method RequeueIfAny(req: nat, offset: int, count: nat)
      requires Valid()
      modifies loop
      ensures Valid() && Registry() == old(Registry())
      ensures View() == RequeuedIfAny(old(View()), req, offset, count)
    {
      if count > 0 {
        Queue(RunSendFile(req, offset, count));
      }
    }

    /** The sendfile call: where the file is then at, what remains, and whether the socket is broken. */
    method TrySendFile(req: nat, offset: int, count: nat, io: IoResult)
      returns (next: int, remaining: nat, faultError: bool)
      requires Valid() && Fits(io, count)
      modifies this`history, loop
      ensures Valid() && (io.Failed? ==> View() == old(View()))
      ensures io.Wrote? ==>
                var sent := ConnectionSpec.Emit(old(View()), FileBytes(req, offset, io.n));
                View() == if io.n == count then ConnectionSpec.QueueWriteComplete(sent) else sent
      ensures next == (if io.Wrote? then offset + io.n else offset)
      ensures remaining == (if io.Wrote? then count - io.n else count)
      ensures faultError == IsFault(io)
      ensures Registry() == old(Registry())
    {
      next, remaining, faultError := offset, count, false;
      if io.Wrote? {
        next := offset + io.n;
        remaining := remaining - io.n;
        WroteDirectly(FileBytes(req, offset, io.n), remaining);
      } else {
        if io.errno == BrokenPipe || io.errno == ConnectionReset {
          faultError := true;
        }
      }
    }

    // ---- The loop's tasks

    /** The loop runs the first of the connection's tasks; io is the kernel's answer should it write, and called
        lists the notification whose callback is run. */
    method RunTask(io: IoResult) returns (called: seq<Note>)
      requires Valid() && loop.pending != [] && Fits(io, ConnectionMachine.Asked(loop.pending[0]))
      modifies this`history, loop, outputBuffer, outputBuffer.buffer
      modifies channel`events, channel`index, channel.poller`channels, channel.poller`kernel, channel.poller`refused
      ensures Valid() && (outputBuffer.buffer == old(outputBuffer.buffer) || fresh(outputBuffer.buffer))
      ensures View() == ConnectionMachine.RunHead(ConnectionMachine.Popped(old(View())), old(loop.pending[0]), io)
      ensures called == if old(loop.pending[0]).Notify? then [old(loop.pending[0]).note] else []
      ensures Registries.OthersKept(old(Registry()), Registry(), channel)
    {
      called := [];
      var t := PopTask();
      match t
      case RunSend(payload) => SendInLoop(payload, io);
      case RunShutdown => ShutdownInLoop();
      case RunSendFile(req, offset, count) => SendFileInLoop(req, offset, count, io);
      case Notify(note) => called := [note];
    }

    method PopTask() returns (t: Task)
      requires Valid() && loop.pending != []
      modifies loop
      ensures Valid() && Registry() == old(Registry())
      ensures View() == ConnectionMachine.Popped(old(View())) && t == old(loop.pending[0])
    {
      t := loop.TakeFirst();
    }

    // ---- A user's callback

    /** The user takes all that has come in. */
    method TakeInput() returns (data: seq<char>)
      requires Valid()
      modifies inputBuffer`readerIndex, inputBuffer`writerIndex
      ensures Valid() && Registry() == old(Registry())
      ensures data == old(View()).input && View() == old(View()).(input := [])
    {
      data := inputBuffer.RetrieveAllAsString();
    }

    /** The user takes up to len bytes of what has come in. */
    method Consume(len: nat)
      requires Valid()
      modifies inputBuffer`readerIndex, inputBuffer`writerIndex
      ensures Valid() && Registry() == old(Registry())
      ensures inputBuffer.Shape() == BufferLayout.Retrieved(old(inputBuffer.Shape()), len)
      ensures var input := old(View()).input;
              View() == old(View()).(input := if len < |input| then input[len..] else [])
    {
      inputBuffer.Retrieve(len);
    }

    /** The kernel reports events, and the channel runs the callbacks they call for; but none of a connection that
        has come up and whose owner is gone by now. */
    method Dispatch(revents: Mask, ownerAlive: bool) returns (todo: seq<Handler>)
      requires Valid()
      modifies channel`revents
      ensures Valid() && Registry() == old(Registry()) && View() == old(View())
      ensures ownerAlive ==> todo == Handlers(revents)
      ensures !ownerAlive && View().h.ups > 0 ==> todo == []
    {
      channel.revents := revents;
      todo := channel.HandleEvent(ownerAlive);
      assert channel.poller.View() == old(channel.poller.View());
    }

    /** The echo server's message callback: what has come in is sent back. */
    method Echo(io: IoResult)
      requires Valid() && Fits(io, |View().input|)
      modifies inputBuffer`readerIndex, inputBuffer`writerIndex
      modifies this`history, loop, outputBuffer, outputBuffer.buffer
      modifies channel`events, channel`index, channel.poller`channels, channel.poller`kernel, channel.poller`refused
      ensures Valid() && (outputBuffer.buffer == old(outputBuffer.buffer) || fresh(outputBuffer.buffer))
      ensures View() == ConnectionSpec.Send(old(View()).(input := []), old(View()).input, io)
      ensures Registries.OthersKept(old(Registry()), Registry(), channel)
    {
      var data := TakeInput();
      Send(data, true, io);
    }

    /** The same among any number of connections on one poller, of which none is touched. */
    method EchoAmong(io: IoResult, ghost others: set<TcpConnection>)
      requires Valid() && Fits(io, |View().input|)
      requires forall that | that in others :: that.Valid() && Apart(that)
      modifies inputBuffer`readerIndex, inputBuffer`writerIndex
      modifies this`history, loop, outputBuffer, outputBuffer.buffer
      modifies channel`events, channel`index, channel.poller`channels, channel.poller`kernel, channel.poller`refused
      ensures Valid() && View() == ConnectionSpec.Send(old(View()).(input := []), old(View()).input, io)
      ensures forall that | that in others :: that.Valid() && Apart(that) && that.View() == old(that.View())
    {
      Echo(io);
      forall that | that in others ensures that.Valid() && Apart(that) && that.View() == old(that.View()) {
        that.StaysBeside(channel);
      }
    }
  }
}

/** Which callbacks one reported event mask runs, and in what order. */
module Dispatch {
  import opened SystemCalls

  datatype Handler = OnClose | OnError | OnRead | OnWrite {
    function Rank(): nat {
      match this
      case OnClose => 0
      case OnError => 1
      case OnRead => 2
      case OnWrite => 3
    }
  }

  /** What makes the mask run the handler: a hang-up counts as a close only when nothing is left to read. */
  predicate Runs(revents: Mask, h: Handler) {
    match h
    case OnClose => Has(revents, EPOLLHUP) && !Has(revents, EPOLLIN)
    case OnError => Has(revents, EPOLLERR)
    case OnRead => Has(revents, EPOLLIN | EPOLLPRI)
    case OnWrite => Has(revents, EPOLLOUT)
  }

  function Only(revents: Mask, h: Handler): seq<Handler> {
    if Runs(revents, h) then [h] else []
  }

  function Handlers(revents: Mask): seq<Handler> {
    Only(revents, OnClose) + Only(revents, OnError) + Only(revents, OnRead) + Only(revents, OnWrite)
  }

  /** Strictly ascending: close, error, read, write, each at most once. */
  ghost predicate InOrder(hs: seq<Handler>) {
    forall i, j | 0 <= i < j < |hs| :: hs[i].Rank() < hs[j].Rank()
  }

  /** The one kind of mask that runs both the close and the read callback: a hang-up and urgent data without EPOLLIN. */
  predicate ClosesAndReads(revents: Mask) {
    Has(revents, EPOLLHUP) && Has(revents, EPOLLPRI) && !Has(revents, EPOLLIN)
  }

  /** Each callback is run for exactly these bits, whatever others are reported with them, in the order close,
      error, read, write, and once. */
  lemma HandlersExact(revents: Mask)
    ensures OnClose in Handlers(revents) <==> revents & EPOLLHUP != 0 && revents & EPOLLIN == 0
    ensures OnError in Handlers(revents) <==> revents & EPOLLERR != 0
    ensures OnRead in Handlers(revents) <==> revents & EPOLLIN != 0 || revents & EPOLLPRI != 0
    ensures OnWrite in Handlers(revents) <==> revents & EPOLLOUT != 0
    ensures InOrder(Handlers(revents))
  {
    HandlersInOrder(revents);
    RunsExact(revents, OnClose);
    RunsExact(revents, OnError);
    RunsExact(revents, OnRead);
    RunsExact(revents, OnWrite);
  }

  lemma HandlersInOrder(revents: Mask)
    ensures InOrder(Handlers(revents))
  {
  }

  lemma RunsExact(revents: Mask, h: Handler)
    ensures h in Handlers(revents) <==> Runs(revents, h)
  {
  }

  lemma ClosesAndReadsIff(revents: Mask)
    ensures OnClose in Handlers(revents) && OnRead in Handlers(revents) <==> ClosesAndReads(revents)
  {
  }
}

/** The queues, the callback slot and the worker of inc/DoIPDownstreamServerModel.h. */
module Downstream {
  import opened Options
  import opened Bytes
  import opened Message
  import opened ConnectionSpec
  import Queues

  /** Where the worker thread stands in its turn: about to look at the transmit queue, with a request popped, about to
      look at the receive queue, with a response popped, or back from the callback with the slot still to be reset. */
  datatype Worker =
    | LooksAtTx
    | Requesting(request: seq<byte>)
    | LooksAtRx
    | Responding(response: seq<byte>)
    | Resetting

  /** `callback` tells whether the slot is set. */
  datatype Path = Path(
    tx: Queues.Queue<seq<byte>>,
    rx: Queues.Queue<seq<byte>>,
    worker: Worker,
    callback: bool)

  function Idle(): Path {
    Path(Queues.Queue([], false), Queues.Queue([], false), LooksAtTx, false)
  }

  function Accept(p: Path, msg: DoIPMessage): Path {
    p.(tx := Queues.Apply(p.tx, Queues.Push(msg.DiagnosticPayload())), callback := true)
  }

  function TakeRequest(p: Path): Path {
    match Queues.Result(p.tx, Queues.Pop)
    case None => p.(worker := LooksAtRx)
    case Some(request) => p.(worker := Requesting(request), tx := Queues.Apply(p.tx, Queues.Pop))
  }

  function Answer(p: Path, provider: seq<byte> -> seq<byte>): Path
    requires p.worker.Requesting?
  {
    p.(worker := LooksAtRx, rx := Queues.Apply(p.rx, Queues.Push(provider(p.worker.request))))
  }

  function TakeResponse(p: Path): Path {
    match Queues.Result(p.rx, Queues.Pop)
    case None => p.(worker := LooksAtTx)
    case Some(response) => p.(worker := Responding(response), rx := Queues.Apply(p.rx, Queues.Pop))
  }

  /** The slot is looked at, and called if it is set. */
  function Call(p: Path): Path {
    p.(worker := if p.callback then Resetting else LooksAtTx)
  }

  function Reset(p: Path): Path {
    p.(worker := LooksAtTx, callback := false)
  }

  /** Each method is one atomic step of a handler or of the worker thread. */
  class DoIPDownstreamServerModel {
    const tx: Queues.ThreadSafeQueue<seq<byte>>
    const rx: Queues.ThreadSafeQueue<seq<byte>>
    var downstreamCallback: bool
    /** The worker's position and its local variable. */
    ghost var worker: Worker

    ghost predicate Valid() {
      tx != rx
    }

    ghost function View(): Path
      reads this, tx, rx
    {
      Path(tx.View(), rx.View(), worker, downstreamCallback)
    }

    constructor ()
      ensures Valid() && View() == Idle() && fresh(tx) && fresh(rx)
    {
      tx := new Queues.ThreadSafeQueue();
      rx := new Queues.ThreadSafeQueue();
      downstreamCallback := false;
      worker := LooksAtTx;
    }

    /** The onDownstreamRequest callback; `callback` tells whether a response handler was passed. */
    method OnDownstreamRequest(msg: DoIPMessage, callback: bool) returns (result: DownstreamResult)
      requires Valid()
      modifies this, tx
      ensures callback ==> result == Pending && View() == Accept(old(View()), msg)
      ensures !callback ==> result == Error && View() == old(View()).(callback := false)
    {
      downstreamCallback := callback;
      if !downstreamCallback {
        return Error;
      }
      tx.Push(msg.DiagnosticPayload());
      result := Pending;
    }

    method PopRequest() returns (request: Option<seq<byte>>)
      requires Valid()
      modifies this`worker, tx
      ensures View() == TakeRequest(old(View()))
      ensures request == Queues.Result(old(tx.View()), Queues.Pop)
    {
      request := None;
      var n := tx.Size();
      if n > 0 {
        request := tx.Pop();
      }
      worker := if request.Some? then Requesting(request.value) else LooksAtRx;
    }

    /** The provider's answer comes in. */
    method HandleDownstreamResponse(payload: seq<byte>)
      requires Valid()
      modifies this`worker, rx
      ensures View() ==
        old(View()).(rx := Queues.Apply(old(rx.View()), Queues.Push(payload)), worker := LooksAtRx)
    {
      rx.Push(payload);
      worker := LooksAtRx;
    }

    method PopResponse() returns (response: Option<seq<byte>>)
      requires Valid()
      modifies this`worker, rx
      ensures View() == TakeResponse(old(View()))
      ensures response == Queues.Result(old(rx.View()), Queues.Pop)
    {
      response := None;
      var n := rx.Size();
      if n > 0 {
        response := rx.Pop();
      }
      worker := if response.Some? then Responding(response.value) else LooksAtTx;
    }

    method ResetCallback()
      requires Valid()
      modifies this
      ensures View() == Reset(old(View()))
    {
      downstreamCallback := false;
      worker := LooksAtTx;
    }
  }
}

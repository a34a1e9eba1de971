// The log service as one object, when nothing interferes (src/Utility/LogService.cc).
module LogObjects {
  import opened LogModel

  function Flat(batches: seq<seq<Entry>>): seq<Entry> {
    if batches == [] then [] else batches[0] + Flat(batches[1..])
  }

  // What is still to be pushed before the stop.
  function Coming(arrivals: seq<seq<Entry>>, next: nat, running: bool): seq<Entry>
    requires next <= |arrivals|
  {
    if running then Flat(arrivals[next..]) else []
  }

  // The file once the queue and what is still to come are written, in this order.
  function InTheEnd(file: seq<Entry>, open: bool, queue: seq<Entry>, coming: seq<Entry>): seq<Entry> {
    file + if open then queue + coming else []
  }

  lemma Drained(file: seq<Entry>, open: bool, queue: seq<Entry>, coming: seq<Entry>)
    ensures InTheEnd(if open then file + queue else file, open, [], coming) == InTheEnd(file, open, queue, coming)
  {
    assert [] + coming == coming;
    assert (file + queue) + coming == file + (queue + coming);
  }

  lemma NothingComes(file: seq<Entry>, open: bool, arrivals: seq<seq<Entry>>, next: nat)
    requires next <= |arrivals|
    ensures InTheEnd(file, open, [], Coming(arrivals, next, false)) == file
  {
  }

  class LogService {
    var currentLevel: int
    var running: bool
    var messageQueue: seq<Entry>
    var fileOpen: bool
    var logFile: seq<Entry>

    // `hasFile`: the file for today could be opened. The initial level is DEBUG, the lowest.
    constructor (hasFile: bool)
      ensures currentLevel == 0 && running && messageQueue == [] && fileOpen == hasFile && logFile == []
    {
      currentLevel, running, messageQueue, fileOpen, logFile := 0, true, [], hasFile, [];
    }

    method Log(entry: Entry, level: int)
      modifies this`messageQueue
      ensures messageQueue == if level < currentLevel then old(messageQueue) else old(messageQueue) + [entry]
    {
      if level < currentLevel { return; }
      messageQueue := messageQueue + [entry];
    }

    // The wait on the condition variable. `arrivals`: what is pushed while the worker waits, each
    // time it waits; an empty batch is a spurious wakeup. When nothing more arrives the service
    // is stopped.
    method Wait(arrivals: seq<seq<Entry>>, next: nat) returns (next': nat)
      requires next <= |arrivals|
      modifies this`messageQueue, this`running
      ensures next <= next' <= |arrivals| && (running ==> old(running))
      ensures !running || messageQueue != []
      ensures messageQueue + Coming(arrivals, next', running) ==
        old(messageQueue) + Coming(arrivals, next, old(running))
      ensures if old(running) && old(messageQueue) == [] then !running || next' > next
              else running == old(running) && messageQueue == old(messageQueue)
    {
      next' := next;
      while running && messageQueue == []
        invariant next <= next' <= |arrivals| && (running ==> old(running))
        invariant messageQueue + Coming(arrivals, next', running) ==
          old(messageQueue) + Coming(arrivals, next, old(running))
        invariant next' == next && running == old(running) ==> messageQueue == old(messageQueue)
        invariant !old(running) || old(messageQueue) != [] ==> next' == next && running == old(running)
        decreases running, |arrivals| - next'
      {
        if next' == |arrivals| {
          running := false;
        } else {
          assert arrivals[next'..][1..] == arrivals[next' + 1..];
          messageQueue := arrivals[next'];
          next' := next' + 1;
        }
      }
    }

    // The worker's loop.
    method ProcessMessages(arrivals: seq<seq<Entry>>)
      modifies this`messageQueue, this`logFile, this`running
      ensures messageQueue == [] && !running
      ensures logFile == old(logFile) + if fileOpen then old(messageQueue) + Coming(arrivals, 0, old(running)) else []
    {
      hide Coming;
      var next := 0;
      ghost var all := InTheEnd(logFile, fileOpen, messageQueue, Coming(arrivals, 0, running));
      while running || messageQueue != []
        invariant next <= |arrivals|
        invariant all == InTheEnd(logFile, fileOpen, messageQueue, Coming(arrivals, next, running))
        decreases running, |arrivals| - next, |messageQueue|
      {
        next := Wait(arrivals, next);
        Drained(logFile, fileOpen, messageQueue, Coming(arrivals, next, running));
        DrainQueue();
      }
      NothingComes(logFile, fileOpen, arrivals, next);
    }

    // The inner loop: front, pop, write.
    method DrainQueue()
      modifies this`messageQueue, this`logFile
      ensures messageQueue == []
      ensures logFile == if fileOpen then old(logFile) + old(messageQueue) else old(logFile)
    {
      ghost var all := if fileOpen then logFile + messageQueue else logFile;
      while messageQueue != []
        invariant if fileOpen then logFile + messageQueue == all else logFile == all
        decreases |messageQueue|
      {
        var msg := messageQueue[0];
        messageQueue := messageQueue[1..];
        if fileOpen {
          logFile := logFile + [msg];
        }
      }
    }

    // The destructor: stop, wait for the worker, close.
    method Destroy()
      modifies this
      ensures !running && messageQueue == [] && !fileOpen
      ensures logFile == if old(fileOpen) then old(logFile) + old(messageQueue) else old(logFile)
    {
      running := false;
      ProcessMessages([]);
      fileOpen := false;
    }
  }
}

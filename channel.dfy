/**
  The receiving end of the channel on which the file watcher posts its
  debounced events. The watcher itself runs on its own thread; here only
  what it leaves in the queue, and whether it still holds the sender, is
  kept.
 */
module Channel {

  /** The debounced events the watcher posts. */
  datatype WatchEvent =
    | NoticeWrite(path: string)
    | NoticeRemove(path: string)
    | Create(path: string)
    | Write(path: string)
    | Chmod(path: string)
    | Remove(path: string)
    | Rename(from: string, to: string)
    | Rescan
    | Error(reason: string)

  /** What a non-blocking receive yields. */
  datatype TryRecv = Received(event: WatchEvent) | Empty | Disconnected

  class Receiver {
    /** Events posted and not yet received, oldest first. */
    var queue: seq<WatchEvent>
    /** The sending half still exists. */
    var connected: bool

    /** A fresh channel: nothing queued, sender alive. */
    constructor ()
      ensures queue == [] && connected
    {
      queue := [];
      connected := true;
    }

    /** The watcher posts an event. */
    method Send(e: WatchEvent)
      requires connected
      modifies this
      ensures queue == old(queue) + [e] && connected
    {
      queue := queue + [e];
    }

    /** The watcher drops its sender. Events already queued stay receivable. */
    method Hangup()
      modifies this
      ensures queue == old(queue) && !connected
    {
      connected := false;
    }

    /**
      `try_recv`: the oldest queued event if there is one, even after the
      sender is gone; otherwise Empty while the sender lives and
      Disconnected after it is dropped.
     */
    method TryReceive() returns (r: TryRecv)
      modifies this
      ensures connected == old(connected)
      ensures old(queue) != [] ==> r == Received(old(queue)[0]) && queue == old(queue)[1..]
      ensures old(queue) == [] ==> queue == [] && r == (if connected then Empty else Disconnected)
    {
      if queue != [] {
        r := Received(queue[0]);
        queue := queue[1..];
      } else if connected {
        r := Empty;
      } else {
        r := Disconnected;
      }
    }
  }
}

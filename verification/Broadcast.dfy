/** The broadcast channel from a controller to its workers: it retains one message. */
module Broadcast {
  import opened Messages

  const CAPACITY: nat := 1

  datatype Poll = Empty | Next(message: WorkerMessage, cursor: nat) | Lagged(cursor: nat)

  /**
   * What a subscriber that has consumed up to `cursor` receives next: the oldest message it has not
   * seen, unless that is no longer retained; then it lags, and skips to the oldest that is.
   */
  function Receive(published: seq<WorkerMessage>, cursor: nat): (r: Poll)
    requires cursor <= |published|
    ensures r.Empty? <==> cursor == |published|
    ensures r.Lagged? <==> |published| - cursor > CAPACITY
    ensures r.Next? ==> r.message == published[cursor] && r.cursor == cursor + 1
    ensures r.Lagged? ==> cursor < r.cursor == |published| - CAPACITY
  {
    if cursor == |published| then Empty
    else if |published| - cursor > CAPACITY then Lagged(|published| - CAPACITY)
    else Next(published[cursor], cursor + 1)
  }
}

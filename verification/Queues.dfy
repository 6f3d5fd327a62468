/** Counting the messages of a controller's queue. */
module Queues {
  import opened Messages
  import opened Control

  predicate NoRepeats(queue: seq<ControllerMessage>) {
    forall i, j :: 0 <= i < j < |queue| ==> queue[i] != queue[j]
  }

  lemma {:induction false} SubsetSize(a: set<nat>, b: set<nat>)
    requires a <= b
    ensures |a| <= |b|
  {
    if a != {} {
      var x :| x in a;
      SubsetSize(a - {x}, b - {x});
    }
  }

  /** The streams a queue announces the end of. */
  function Ended(queue: seq<ControllerMessage>): set<nat> {
    if queue == [] then {}
    else if queue[0].StreamTerminated? then {queue[0].id} + Ended(queue[1..])
    else Ended(queue[1..])
  }

  lemma {:induction false} EndedMember(queue: seq<ControllerMessage>, id: nat)
    ensures id in Ended(queue) <==> StreamTerminated(id) in queue
  {
    if queue != [] {
      EndedMember(queue[1..], id);
      assert queue == [queue[0]] + queue[1..];
    }
  }

  lemma {:induction false} EndedSize(queue: seq<ControllerMessage>)
    requires NoRepeats(queue) && forall m :: m in queue ==> m.StreamTerminated?
    ensures |Ended(queue)| == |queue|
  {
    if queue != [] {
      var rest := queue[1..];
      assert forall m :: m in rest ==> m in queue;
      EndedSize(rest);
      EndedMember(rest, queue[0].id);
      assert queue[0] == StreamTerminated(queue[0].id);
      assert queue[0] !in rest;
    }
  }

  /** Announcements of different streams below `total`, none of them `but`, are fewer than `total`. */
  lemma FewAnnouncements(queue: seq<ControllerMessage>, total: nat, but: nat)
    requires NoRepeats(queue) && but < total
    requires forall m :: m in queue ==> m.StreamTerminated? && m.id < total && m.id != but
    ensures |queue| < total
  {
    EndedSize(queue);
    forall id | id in Ended(queue) ensures id in Ids(total) - {but} {
      EndedMember(queue, id);
    }
    SubsetSize(Ended(queue), Ids(total) - {but});
  }

  function Elements(s: seq<nat>): set<nat> {
    if s == [] then {} else {s[0]} + Elements(s[1..])
  }

  lemma {:induction false} ElementsOf(s: seq<nat>, k: nat)
    ensures k in Elements(s) <==> k in s
    ensures |Elements(s)| <= |s|
  {
    if s != [] {
      ElementsOf(s[1..], k);
      assert s == [s[0]] + s[1..];
    }
  }

  /** A sequence that has every number below `bound` is at least that long. */
  lemma ManyElements(s: seq<nat>, bound: nat)
    requires forall k: nat :: k < bound ==> k in s
    ensures |s| >= bound
  {
    forall k | k in Ids(bound) ensures k in Elements(s) {
      ElementsOf(s, k);
    }
    SubsetSize(Ids(bound), Elements(s));
    ElementsOf(s, 0);
  }
}

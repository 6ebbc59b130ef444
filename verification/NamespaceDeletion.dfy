/** Deleting a namespace: `DeleteNamespace` of obs-bench/internal/providers/kubernetes/provider.go.
    The API server, the clock and the choice between a tick and the expired context are arbitrary;
    time is virtual, in milliseconds since the wait began. */
module NamespaceDeletion {
  import opened Collections

  datatype Reply = NotFound | Error | Found(terminating: bool)

  /** What the wait sees next: a tick at some time, the answer to its poll and the time of the check after
      it, or the expired context and the answer to the last query. */
  datatype Event = Tick(at: nat, reply: Reply, now: nat) | Expired(reply: Reply)

  datatype Call = Get(reply: Reply) | Delete(ok: bool) | Force(polling: bool)

  /** Waiting: the events seen so far have not ended the call. */
  datatype Outcome = Nil | Failed | Waiting

  const FORCE_AFTER: nat := 2 * 60 * 1000

  function Count(p: Call -> bool, s: seq<Call>): nat {
    if |s| == 0 then 0 else Count(p, s[..|s| - 1]) + if p(s[|s| - 1]) then 1 else 0
  }

  const IsDelete: Call -> bool := (c: Call) => c.Delete?

  const IsForce: Call -> bool := (c: Call) => c.Force?

  const IsPollingForce: Call -> bool := (c: Call) => c == Force(true)

  const IsGet: Call -> bool := (c: Call) => c.Get?

  lemma CountStep(p: Call -> bool, s: seq<Call>, c: Call)
    ensures Count(p, s + [c]) == Count(p, s) + if p(c) then 1 else 0
  {
    assert (s + [c])[..|s|] == s;
  }

  /** How often each kind of call occurs. */
  datatype Tally = Tally(gets: nat, deletes: nat, forces: nat, pollingForces: nat)

  function TallyOf(s: seq<Call>): Tally {
    Tally(Count(IsGet, s), Count(IsDelete, s), Count(IsForce, s), Count(IsPollingForce, s))
  }

  lemma TallyStep(s: seq<Call>, c: Call)
    ensures
      var t := TallyOf(s);
      TallyOf(s + [c]) == match c
        case Get(_) => t.(gets := t.gets + 1)
        case Delete(_) => t.(deletes := t.deletes + 1)
        case Force(polling) => t.(forces := t.forces + 1, pollingForces := t.pollingForces + if polling then 1 else 0)
  {
    CountStep(IsGet, s, c);
    CountStep(IsDelete, s, c);
    CountStep(IsForce, s, c);
    CountStep(IsPollingForce, s, c);
  }

  ghost predicate LastIsNotFound(calls: seq<Call>) {
    |calls| > 0 && calls[|calls| - 1] == Get(NotFound)
  }

  /** Poll number k found the namespace terminating after the patience was over. */
  ghost predicate LatePoll(events: seq<Event>, k: int) {
    0 <= k < |events| && events[k].Tick? && events[k].reply == Found(true) && events[k].now > 120_000
  }

  ghost predicate FirstLatePoll(events: seq<Event>, k: int) {
    LatePoll(events, k) && forall j :: 0 <= j < k ==> !LatePoll(events, j)
  }

  /** The replies of the queries, in order. */
  function Replies(calls: seq<Call>): seq<Reply> {
    if |calls| == 0 then []
    else Replies(calls[..|calls| - 1]) + match calls[|calls| - 1] case Get(reply) => [reply] case _ => []
  }

  function ReplyOf(e: Event): Reply {
    match e
    case Tick(_, reply, _) => reply
    case Expired(reply) => reply
  }

  lemma RepliesStep(calls: seq<Call>, c: Call)
    ensures Replies(calls + [c]) == Replies(calls) + match c case Get(reply) => [reply] case _ => []
  {
    assert (calls + [c])[..|calls|] == calls;
  }

  /** The last forced finalisation comes between the expiry of the context and the last query, and nowhere
      else. */
  ghost predicate FinalForce(calls: seq<Call>, events: seq<Event>, seen: nat) {
    if 0 < seen <= |events| && events[seen - 1].Expired? then
      && |calls| >= 2 && calls[|calls| - 2..] == [Force(false), Get(events[seen - 1].reply)]
      && NoFinalForce(calls[..|calls| - 2])
    else NoFinalForce(calls)
  }

  ghost predicate NoFinalForce(calls: seq<Call>) {
    Force(false) !in calls
  }

  lemma ForcedAtEnd(calls: seq<Call>, events: seq<Event>, seen: nat, reply: Reply)
    requires NoFinalForce(calls) && 0 < seen <= |events| && events[seen - 1] == Expired(reply)
    ensures FinalForce((calls + [Force(false)]) + [Get(reply)], events, seen)
  {
    hide NoFinalForce;
    var all := (calls + [Force(false)]) + [Get(reply)];
    assert all[..|all| - 2] == calls;
  }

  lemma NotForcedAtEnd(calls: seq<Call>, events: seq<Event>, seen: nat)
    requires NoFinalForce(calls) && (0 < seen <= |events| ==> events[seen - 1].Tick?)
    ensures FinalForce(calls, events, seen)
  {
  }

  /** A forced finalisation while polling directly follows the first poll that found the namespace
      terminating too late. Polls are numbered by the queries before them; the query that opens the call
      is not a poll. */
  ghost predicate Justified(calls: seq<Call>, events: seq<Event>) {
    forall i :: 0 <= i < |calls| && calls[i] == Force(true) ==>
      i > 0 && calls[i - 1] == Get(Found(true)) && FirstLatePoll(events, Count(IsGet, calls[..i]) - 2)
  }

  lemma JustifiedStep(calls: seq<Call>, events: seq<Event>, c: Call)
    requires Justified(calls, events) && c != Force(true)
    ensures Justified(calls + [c], events)
  {
    hide Count, FirstLatePoll;
    forall i | 0 <= i < |calls| ensures (calls + [c])[..i] == calls[..i] {}
  }

  /** Against any environment, after any number of events. */
  method DeleteNamespace(first: Reply, deleteOk: bool, events: seq<Event>)
    returns (o: Outcome, calls: seq<Call>, seen: nat)
    ensures seen <= |events| && (o == Waiting ==> seen == |events|)
    ensures o == Nil <==> LastIsNotFound(calls)
    ensures TallyOf(calls).deletes == (if first == Found(false) then 1 else 0)
    ensures first == Found(false) ==> |calls| > 1 && calls[1] == Delete(deleteOk)
    ensures TallyOf(calls).pollingForces <= 1 && TallyOf(calls).forces <= 2
    ensures TallyOf(calls).gets == seen + 1
    ensures Replies(calls) == [first] + Map(ReplyOf, events[..seen])
    ensures FinalForce(calls, events, seen)
    ensures o == Failed <==>
      || first == Error || (first == Found(false) && !deleteOk)
      || (seen > 0 && (ReplyOf(events[seen - 1]) == Error || (events[seen - 1].Expired? && !LastIsNotFound(calls))))
    ensures Justified(calls, events)
    ensures TallyOf(calls).pollingForces == 1 <==> exists k :: 0 <= k < seen && LatePoll(events, k)
    ensures forall k :: 0 <= k < seen - 1 ==> events[k].Tick? && events[k].reply.Found?
    ensures o == Waiting ==> forall k :: 0 <= k < seen ==> events[k].Tick? && events[k].reply.Found?
  {
    hide TallyOf, Justified, Replies, LatePoll, NoFinalForce, FinalForce, Map;
    seen := 0;
    EmptyLog(first, events);
    LogStep([], events, Get(first));
    calls := [] + [Get(first)];
    NotForcedAtEnd(calls, events, 0);
    if first == NotFound {
      return Nil, calls, 0;
    }
    if first == Error {
      return Failed, calls, 0;
    }
    if !first.terminating {
      LogStep(calls, events, Delete(deleteOk));
      calls := calls + [Delete(deleteOk)];
      NotForcedAtEnd(calls, events, 0);
      if !deleteOk {
        return Failed, calls, 0;
      }
    }
    var forcedOnce := false;
    ghost var deletes := if first == Found(false) then 1 else 0;
    while seen < |events|
      invariant seen <= |events|
      invariant |calls| > 0 && !LastIsNotFound(calls)
      invariant first.Found? && (first == Found(false) ==> deleteOk && |calls| > 1 && calls[1] == Delete(deleteOk))
      invariant TallyOf(calls) == Tally(seen + 1, deletes, if forcedOnce then 1 else 0, if forcedOnce then 1 else 0)
      invariant Replies(calls) == [first] + Map(ReplyOf, events[..seen])
      invariant NoFinalForce(calls) && FinalForce(calls, events, seen)
      invariant Justified(calls, events)
      invariant forcedOnce <==> exists k :: 0 <= k < seen && LatePoll(events, k)
      invariant forall k :: 0 <= k < seen ==> events[k].Tick? && events[k].reply.Found?
    {
      var e := events[seen];
      ghost var poll := seen;
      PollStep(events, seen);
      seen := seen + 1;
      match e {
        case Tick(_, reply, now) =>
          LogStep(calls, events, Get(reply));
          calls := calls + [Get(reply)];
          NotForcedAtEnd(calls, events, seen);
          if reply == NotFound {
            return Nil, calls, seen;
          }
          if reply == Error {
            return Failed, calls, seen;
          }
          if reply.terminating && !forcedOnce && now > FORCE_AFTER {
            forcedOnce := true;
            ForceStep(calls, events, poll);
            calls := calls + [Force(true)];
            NotForcedAtEnd(calls, events, seen);
          }
        case Expired(reply) =>
          ForcedAtEnd(calls, events, seen, reply);
          LogStep(calls, events, Force(false));
          calls := calls + [Force(false)];
          LogStep(calls, events, Get(reply));
          calls := calls + [Get(reply)];
          if reply == NotFound {
            return Nil, calls, seen;
          }
          return Failed, calls, seen;
      }
    }
    o := Waiting;
  }

  /** What one more event adds. */
  lemma PollStep(events: seq<Event>, k: nat)
    requires k < |events|
    ensures Map(ReplyOf, events[..k + 1]) == Map(ReplyOf, events[..k]) + [ReplyOf(events[k])]
    ensures LatePoll(events, k) <==>
      events[k].Tick? && events[k].reply == Found(true) && events[k].now > FORCE_AFTER
  {
  }

  lemma ForceStep(calls: seq<Call>, events: seq<Event>, k: nat)
    requires Justified(calls, events) && TallyOf(calls).gets == k + 2 && NoFinalForce(calls)
    requires |calls| > 0 && calls[|calls| - 1] == Get(Found(true)) && FirstLatePoll(events, k)
    ensures Justified(calls + [Force(true)], events) && NoFinalForce(calls + [Force(true)])
    ensures Replies(calls + [Force(true)]) == Replies(calls)
    ensures
      var t := TallyOf(calls);
      TallyOf(calls + [Force(true)]) == t.(forces := t.forces + 1, pollingForces := t.pollingForces + 1)
  {
    hide TallyOf, Justified, Replies;
    TallyStep(calls, Force(true));
    RepliesStep(calls, Force(true));
    JustifiedForce(calls, events, k);
    assert Replies(calls) + [] == Replies(calls);
  }

  /** One more call that is not a forced finalisation while polling. */
  lemma LogStep(calls: seq<Call>, events: seq<Event>, c: Call)
    requires Justified(calls, events) && c != Force(true)
    ensures Justified(calls + [c], events)
    ensures c != Force(false) && NoFinalForce(calls) ==> NoFinalForce(calls + [c])
    ensures Replies(calls + [c]) == Replies(calls) + match c case Get(reply) => [reply] case _ => []
    ensures
      var t := TallyOf(calls);
      TallyOf(calls + [c]) == match c
        case Get(_) => t.(gets := t.gets + 1)
        case Delete(_) => t.(deletes := t.deletes + 1)
        case Force(_) => t.(forces := t.forces + 1)
  {
    hide TallyOf, Justified, Replies;
    TallyStep(calls, c);
    JustifiedStep(calls, events, c);
    RepliesStep(calls, c);
  }

  lemma EmptyLog(first: Reply, events: seq<Event>)
    ensures TallyOf([]) == Tally(0, 0, 0, 0) && Justified([], events) && NoFinalForce([])
    ensures Replies([]) + [first] == [first] + Map(ReplyOf, events[..0])
  {
  }

  lemma JustifiedForce(calls: seq<Call>, events: seq<Event>, k: nat)
    requires Justified(calls, events) && TallyOf(calls).gets == k + 2
    requires |calls| > 0 && calls[|calls| - 1] == Get(Found(true)) && FirstLatePoll(events, k)
    ensures Justified(calls + [Force(true)], events)
  {
    hide Count, FirstLatePoll;
    forall i | 0 <= i <= |calls| ensures (calls + [Force(true)])[..i] == calls[..i] {}
    assert calls[..|calls|] == calls;
  }

  /** A ticker delivers tick number k no earlier than its time, 200 milliseconds apart, and a query whose context
      has expired, after five minutes, is answered with an error. */
  ghost predicate Timely(events: seq<Event>) {
    forall k :: 0 <= k < |events| && events[k].Tick? ==>
      events[k].at >= 200 * (k + 1) && (events[k].at > 300_000 ==> events[k].reply == Error)
  }

  /** In a timely world at most 1501 polls are made: the window over the tick, plus one. So the call ends. */
  method DeletionEnds(first: Reply, deleteOk: bool, events: seq<Event>)
    returns (o: Outcome, calls: seq<Call>, seen: nat)
    requires Timely(events)
    ensures seen <= 1501
    ensures TallyOf(calls).gets <= 1502
    ensures |events| > 1500 ==> o != Waiting
  {
    o, calls, seen := DeleteNamespace(first, deleteOk, events);
    if seen >= 2 {
      assert events[seen - 2].Tick? && events[seen - 2].reply.Found?;
    }
    if o == Waiting && seen >= 1 {
      assert events[seen - 1].Tick? && events[seen - 1].reply.Found?;
    }
  }
}

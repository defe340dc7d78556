/*
 * Properties of whole runs of the plugin: any sequence of platform method
 * calls and readiness handshakes, applied one after another from a reachable
 * state. They are stated on what callers can observe, the replies delivered
 * to their Result objects, and on the engines the engine group has created.
 */
module Traces {
  import opened IsolateProtocol

  /** One event handled on the platform thread. */
  datatype Event =
    | Call(call: MethodCall, result: ResultId, destroyFails: bool)  // onMethodCall
    | Listen                                                        // onListen

  function Step(s: State, e: Event): (r: State)
    requires Inv(s)
    ensures Inv(r)
  {
    match e
    case Call(call, result, destroyFails) =>
      OnMethodCallKeepsInv(s, call, result, destroyFails);
      OnMethodCall(s, call, result, destroyFails)
    case Listen =>
      HandshakeKeepsInv(s);
      Handshake(s)
  }

  /** The state after handling `evs` in order; replies are only ever added. */
  function Run(s: State, evs: seq<Event>): (r: State)
    requires Inv(s)
    ensures Inv(r)
    ensures |s.replies| <= |r.replies| && r.replies[..|s.replies|] == s.replies
    decreases |evs|
  {
    if evs == [] then s else Run(Step(s, evs[0]), evs[1..])
  }

  predicate IsSpawn(e: Event)
  {
    e.Call? && e.call.name == SpawnMethod
  }

  /** The Result of every spawn call in `evs`, in call order. */
  function SpawnResults(evs: seq<Event>): seq<ResultId>
  {
    if evs == [] then []
    else (if IsSpawn(evs[0]) then [evs[0].result] else []) + SpawnResults(evs[1..])
  }

  predicate AllPending(q: seq<Request>)
  {
    forall i :: 0 <= i < |q| ==> q[i].result.Some?
  }

  /** The Results still awaiting a reply, in queue order. */
  function PendingResults(q: seq<Request>): seq<ResultId>
    requires AllPending(q)
  {
    seq(|q|, i requires 0 <= i < |q| && AllPending(q) => q[i].result.value)
  }

  /** The Results answered by a handshake (a success carrying null), in reply order. */
  function HandshakeResults(cs: seq<Completion>): seq<ResultId>
  {
    if cs == [] then []
    else (if cs[0].reply == Success(Null) then [cs[0].result] else []) + HandshakeResults(cs[1..])
  }

  /** 1 while a startup is in flight, that is while the queue is non-empty. */
  function Busy(q: seq<Request>): nat
  {
    if q == [] then 0 else 1
  }

  predicate Distinct(xs: seq<ResultId>)
  {
    forall i, j :: 0 <= i < j < |xs| ==> xs[i] != xs[j]
  }

  lemma {:induction false} HandshakeResultsAppend(a: seq<Completion>, b: seq<Completion>)
    ensures HandshakeResults(a + b) == HandshakeResults(a) + HandshakeResults(b)
  {
    if a == [] {
      assert a + b == b;
    } else {
      assert (a + b)[0] == a[0] && (a + b)[1..] == a[1..] + b;
      HandshakeResultsAppend(a[1..], b);
    }
  }

  /** The replies added by a run: those after the ones already delivered. */
  function NewReplies(s: State, r: State): seq<Completion>
    requires |s.replies| <= |r.replies|
  {
    r.replies[|s.replies|..]
  }

  lemma RepliesSplit(s: State, mid: State, fin: State)
    requires |s.replies| <= |mid.replies| && mid.replies[..|s.replies|] == s.replies
    requires |mid.replies| <= |fin.replies| && fin.replies[..|mid.replies|] == mid.replies
    ensures NewReplies(s, fin) == NewReplies(s, mid) + NewReplies(mid, fin)
  {
  }

  lemma SpawnResultsSplit(evs: seq<Event>)
    requires evs != []
    ensures SpawnResults(evs) == SpawnResults([evs[0]]) + SpawnResults(evs[1..])
  {
  }

  /**
   * One event moves Results from "arrived" to "answered by a handshake" or
   * leaves them pending, without reordering them.
   */
  lemma StepKeepsArrivalOrder(s: State, e: Event)
    requires Inv(s)
    ensures |s.replies| <= |Step(s, e).replies|
    ensures PendingResults(s.queue) + SpawnResults([e])
         == HandshakeResults(NewReplies(s, Step(s, e))) + PendingResults(Step(s, e).queue)
  {
  }

  /**
   * Handshakes answer spawn calls in arrival order: the Results that were
   * pending, followed by those of the spawn calls of the run, are exactly the
   * Results the run's handshakes answered, in answer order, followed by those
   * still pending at the end.
   */
  lemma {:induction false} HandshakesFollowArrivalOrder(s: State, evs: seq<Event>)
    requires Inv(s)
    ensures PendingResults(s.queue) + SpawnResults(evs)
         == HandshakeResults(NewReplies(s, Run(s, evs))) + PendingResults(Run(s, evs).queue)
    decreases |evs|
  {
    if evs == [] {
      assert NewReplies(s, Run(s, evs)) == [];
    } else {
      var s' := Step(s, evs[0]);
      var fin := Run(s', evs[1..]);
      assert fin == Run(s, evs);
      var first, rest := NewReplies(s, s'), NewReplies(s', fin);
      StepKeepsArrivalOrder(s, evs[0]);
      HandshakesFollowArrivalOrder(s', evs[1..]);
      SpawnResultsSplit(evs);
      RepliesSplit(s, s', fin);
      HandshakeResultsAppend(first, rest);
      Regroup(PendingResults(s.queue), SpawnResults([evs[0]]), SpawnResults(evs[1..]),
              HandshakeResults(first), PendingResults(s'.queue),
              HandshakeResults(rest), PendingResults(fin.queue));
    }
  }

  /** Chaining two "arrived == answered + pending" equations. */
  lemma Regroup(pending: seq<ResultId>, arrived1: seq<ResultId>, arrived2: seq<ResultId>,
                answered1: seq<ResultId>, pending1: seq<ResultId>,
                answered2: seq<ResultId>, pending2: seq<ResultId>)
    requires pending + arrived1 == answered1 + pending1
    requires pending1 + arrived2 == answered2 + pending2
    ensures pending + (arrived1 + arrived2) == (answered1 + answered2) + pending2
  {
    calc {
      pending + (arrived1 + arrived2);
      (pending + arrived1) + arrived2;
      (answered1 + pending1) + arrived2;
      answered1 + (pending1 + arrived2);
      answered1 + (answered2 + pending2);
    }
  }

  /**
   * No caller is answered twice: when the Results of the pending and newly
   * spawned requests are distinct, so are the Results the handshakes answer.
   */
  lemma HandshakesAnswerOnce(s: State, evs: seq<Event>)
    requires Inv(s)
    requires Distinct(PendingResults(s.queue) + SpawnResults(evs))
    ensures Distinct(HandshakeResults(NewReplies(s, Run(s, evs))))
  {
    HandshakesFollowArrivalOrder(s, evs);
    var answered := HandshakeResults(NewReplies(s, Run(s, evs)));
    var arrived := PendingResults(s.queue) + SpawnResults(evs);
    assert answered == arrived[..|answered|];
  }

  lemma StepCreatesOneEnginePerStart(s: State, e: Event)
    requires Inv(s)
    ensures |s.replies| <= |Step(s, e).replies|
    ensures Step(s, e).enginesCreated - s.enginesCreated + Busy(s.queue)
         == |HandshakeResults(NewReplies(s, Step(s, e)))| + Busy(Step(s, e).queue)
  {
  }

  /**
   * Each request is started exactly once: over any run, the engines created
   * are one per request the run's handshakes promoted, plus one for the
   * request in flight at the end, minus the one already in flight at the start.
   */
  lemma {:induction false} OneEnginePerStart(s: State, evs: seq<Event>)
    requires Inv(s)
    ensures Run(s, evs).enginesCreated - s.enginesCreated + Busy(s.queue)
         == |HandshakeResults(NewReplies(s, Run(s, evs)))| + Busy(Run(s, evs).queue)
    decreases |evs|
  {
    if evs == [] {
      assert NewReplies(s, Run(s, evs)) == [];
    } else {
      var s' := Step(s, evs[0]);
      var fin := Run(s', evs[1..]);
      StepCreatesOneEnginePerStart(s, evs[0]);
      OneEnginePerStart(s', evs[1..]);
      RepliesSplit(s, s', fin);
      HandshakeResultsAppend(NewReplies(s, s'), NewReplies(s', fin));
    }
  }

  /**
   * spawn("a"), spawn("b"), then one handshake: "a" is active and answered,
   * "b" is the head of the queue and has been started.
   */
  lemma TwoSpawnsThenHandshake(ep: Argument)
    ensures var r := Run(Initial(), [Call(MethodCall(SpawnMethod, ep, "a"), 1, false),
                                     Call(MethodCall(SpawnMethod, ep, "b"), 2, false),
                                     Listen]);
            && "a" in r.active && r.active["a"].starts == 1
            && r.replies == [Completion(1, Success(Null))]
            && |r.queue| == 1 && r.queue[0].isolateId == "b" && r.queue[0].starts == 1
  {
    InitialInv();
    var evs := [Call(MethodCall(SpawnMethod, ep, "a"), 1, false),
                Call(MethodCall(SpawnMethod, ep, "b"), 2, false),
                Listen];
    var s1 := Step(Initial(), evs[0]);
    var s2 := Step(s1, evs[1]);
    var s3 := Step(s2, evs[2]);
    assert Run(s3, evs[3..]) == s3;
    assert Run(s2, evs[2..]) == s3;
    assert Run(s1, evs[1..]) == s3;
    assert Run(Initial(), evs) == s3;
  }

  /** A handshake with nothing queued changes nothing (a stale readiness signal). */
  lemma StaleHandshakeIgnored(s: State, evs: seq<Event>)
    requires Inv(s) && s.queue == []
    ensures Run(s, [Listen] + evs) == Run(s, evs)
  {
    assert ([Listen] + evs)[1..] == evs;
  }

  /** After kill(id) the id may be spawned again: it is queued as a new request. */
  lemma KillThenSpawnSameId(s: State, id: string, ep: Argument, k: ResultId, r: ResultId)
    requires Inv(s)
    ensures var t := Run(s, [Call(MethodCall(KillMethod, OtherArg, id), k, false),
                             Call(MethodCall(SpawnMethod, ep, id), r, false)]);
            && id !in t.active
            && |t.queue| == |s.queue| + 1 && t.queue[|s.queue|].isolateId == id
            && t.queue[|s.queue|].result == Some(r)
  {
    var evs := [Call(MethodCall(KillMethod, OtherArg, id), k, false),
                Call(MethodCall(SpawnMethod, ep, id), r, false)];
    var s1 := Step(s, evs[0]);
    var s2 := Step(s1, evs[1]);
    assert Run(s2, evs[2..]) == s2;
    assert Run(s1, evs[1..]) == s2;
  }
}

/*
 * The spawn / handshake / kill state machine of the dart_ui_isolate Android
 * plugin, stated over values.
 *
 * A State is what the plugin object holds between two events: the FIFO queue
 * of pending spawn requests, the registry of active isolates keyed by id, the
 * replies delivered so far through the callers' Result objects, and the two
 * pieces of engine-group state the plugin relies on (how many engines have
 * been created, which have been destroyed). The class in plugin.dfy is proved to
 * follow these functions event by event.
 */
module IsolateProtocol {

  datatype Option<T> = None | Some(value: T)

  /** Java `int` and `long`. */
  newtype Int32 = x: int | -0x8000_0000 <= x < 0x8000_0000
  newtype Int64 = x: int | -0x8000_0000_0000_0000 <= x < 0x8000_0000_0000_0000

  /** The run-time class of the "entry_point" argument of a method call. */
  datatype Argument = LongArg(l: Int64) | IntegerArg(i: Int32) | OtherArg

  /** Identity of a caller's Result object (the pending reply of one method call). */
  type ResultId = nat

  /** Handle of an engine created by the engine group; engines are numbered as they are made. */
  type EngineId = nat

  datatype Value = Null | Bool(b: bool)
  datatype Reply = Success(value: Value) | NotImplemented

  /** One reply delivered to a caller's Result. */
  datatype Completion = Completion(result: ResultId, reply: Reply)

  /** The parts of a platform method call the plugin reads. */
  datatype MethodCall = MethodCall(name: string, entryPoint: Argument, isolateId: string)

  const SpawnMethod := "spawn_isolate"
  const KillMethod := "kill_isolate"

  /**
   * The value of one IsolateHolder. `result` is None once the reply has been
   * sent, the two channel flags say whether the channel is set (non-null), and
   * `starts` counts how many times a startup was run for this request.
   */
  datatype Request = Request(
    isolateId: string,
    entryPoint: Option<Int64>,
    result: Option<ResultId>,
    engine: Option<EngineId>,
    startupChannel: bool,
    controlChannel: bool,
    starts: nat)

  datatype State = State(
    queue: seq<Request>,
    active: map<string, Request>,
    replies: seq<Completion>,
    enginesCreated: nat,
    destroyed: set<EngineId>)

  /** The state right after the plugin has set up its channel. */
  function Initial(): State
  {
    State([], map[], [], 0, {})
  }

  /**
   * The entry-point token stored in a new holder: a Long is kept, an Integer
   * is widened to the equal Long, anything else leaves the field null.
   */
  function NormaliseEntryPoint(a: Argument): (r: Option<Int64>)
    ensures r.Some? <==> (a.LongArg? || a.IntegerArg?)
    ensures a.LongArg? ==> r.value == a.l
    ensures a.IntegerArg? ==> r.value as int == a.i as int
  {
    match a
    case LongArg(l) => Some(l)
    case IntegerArg(i) => Some(i as Int64)
    case OtherArg => None
  }

  /** Two requests stand for the same spawn call: same id, token and reply. */
  predicate SameCall(a: Request, b: Request)
  {
    a.isolateId == b.isolateId && a.entryPoint == b.entryPoint && a.result == b.result
  }

  /** A fresh holder for a spawn call, not yet started. */
  function NewRequest(call: MethodCall, result: ResultId): Request
  {
    Request(call.isolateId, NormaliseEntryPoint(call.entryPoint), Some(result), None, false, false, 0)
  }

  /** The abstract effect of a startup on the request it starts. */
  function Launch(r: Request, engine: EngineId): Request
  {
    r.(engine := Some(engine), startupChannel := true, controlChannel := true, starts := r.starts + 1)
  }

  /**
   * startNextIsolate: peeks at the head and starts it on a newly created
   * engine; the head stays in the queue.
   */
  function StartHead(s: State): (r: State)
    requires |s.queue| > 0
    ensures |r.queue| == |s.queue| && r.queue[1..] == s.queue[1..]
    ensures SameCall(r.queue[0], s.queue[0])
    ensures r.queue[0].starts == s.queue[0].starts + 1
    ensures r.queue[0].engine == Some(s.enginesCreated) && r.enginesCreated == s.enginesCreated + 1
    ensures r.queue[0].startupChannel && r.queue[0].controlChannel
    ensures r.active == s.active && r.replies == s.replies && r.destroyed == s.destroyed
  {
    s.(queue := s.queue[0 := Launch(s.queue[0], s.enginesCreated)],
       enginesCreated := s.enginesCreated + 1)
  }

  /**
   * The "spawn_isolate" branch: appends one request at the tail and starts it
   * when it is the only queued request. Nothing is replied yet.
   */
  function Spawn(s: State, call: MethodCall, result: ResultId): (r: State)
    ensures |r.queue| == |s.queue| + 1
    ensures r.queue[..|s.queue|] == s.queue
    ensures r.queue[|s.queue|].isolateId == call.isolateId
    ensures r.queue[|s.queue|].entryPoint == NormaliseEntryPoint(call.entryPoint)
    ensures r.queue[|s.queue|].result == Some(result)
    ensures r.queue[|s.queue|].starts == (if s.queue == [] then 1 else 0)
    ensures r.enginesCreated == s.enginesCreated + (if s.queue == [] then 1 else 0)
    ensures r.active == s.active && r.replies == s.replies && r.destroyed == s.destroyed
  {
    var queued := s.(queue := s.queue + [NewRequest(call, result)]);
    if |queued.queue| == 1 then StartHead(queued) else queued
  }

  /** The head of the queue, if any, still has its caller's Result. */
  predicate HeadPending(s: State)
  {
    |s.queue| > 0 ==> s.queue[0].result.Some?
  }

  /** What a request looks like once promoted: reply sent, startup channel dropped. */
  function Retire(r: Request): Request
  {
    r.(result := None, startupChannel := false)
  }

  /**
   * onListen, the readiness handshake: pops the head, registers it under its
   * id (replacing any earlier entry), replies success to its caller, and
   * starts the new head if there is one. On an empty queue nothing happens.
   */
  function Handshake(s: State): (r: State)
    requires HeadPending(s)
    ensures s.queue == [] ==> r == s
    ensures s.queue != [] ==>
      && |r.queue| == |s.queue| - 1
      && (forall i :: 0 <= i < |r.queue| ==> SameCall(r.queue[i], s.queue[i + 1]))
      && (forall i :: 1 <= i < |r.queue| ==> r.queue[i] == s.queue[i + 1])
      && (r.queue != [] ==> r.queue[0].starts == s.queue[1].starts + 1
                            && r.queue[0].engine == Some(s.enginesCreated)
                            && r.enginesCreated == s.enginesCreated + 1)
      && (r.queue == [] ==> r.enginesCreated == s.enginesCreated)
      && r.active == s.active[s.queue[0].isolateId := Retire(s.queue[0])]
      && r.replies == s.replies + [Completion(s.queue[0].result.value, Success(Null))]
      && r.destroyed == s.destroyed
  {
    var popped := if |s.queue| != 0 then Promote(s) else s;
    if |popped.queue| != 0 then StartHead(popped) else popped
  }

  /** The first half of a handshake: the head leaves the queue for the registry and is answered. */
  function Promote(s: State): State
    requires s.queue != [] && s.queue[0].result.Some?
  {
    var head := s.queue[0];
    s.(queue := s.queue[1..],
       active := s.active[head.isolateId := Retire(head)],
       replies := s.replies + [Completion(head.result.value, Success(Null))])
  }

  /**
   * The "kill_isolate" branch: destroys the engine of the registered isolate
   * (a failing destroy, or a missing entry, is swallowed), drops the entry and
   * always replies true.
   */
  function Kill(s: State, isolateId: string, result: ResultId, destroyFails: bool): (r: State)
    ensures isolateId !in r.active
    ensures forall id :: id != isolateId ==> (id in r.active <==> id in s.active)
    ensures forall id :: id in r.active ==> r.active[id] == s.active[id]
    ensures r.queue == s.queue && r.enginesCreated == s.enginesCreated
    ensures r.replies == s.replies + [Completion(result, Success(Bool(true)))]
    ensures s.destroyed <= r.destroyed
    ensures forall e :: e in r.destroyed - s.destroyed ==>
              isolateId in s.active && s.active[isolateId].engine == Some(e)
    ensures !destroyFails && isolateId in s.active && s.active[isolateId].engine.Some? ==>
              s.active[isolateId].engine.value in r.destroyed
  {
    var destroyed :=
      if isolateId in s.active && s.active[isolateId].engine.Some? && !destroyFails
      then s.destroyed + {s.active[isolateId].engine.value}
      else s.destroyed;
    s.(active := s.active - {isolateId},
       destroyed := destroyed,
       replies := s.replies + [Completion(result, Success(Bool(true)))])
  }

  /** onMethodCall: dispatch on the method name; an unknown method is answered "not implemented". */
  function OnMethodCall(s: State, call: MethodCall, result: ResultId, destroyFails: bool): (r: State)
    ensures call.name == SpawnMethod ==> r == Spawn(s, call, result)
    ensures call.name == KillMethod ==> r == Kill(s, call.isolateId, result, destroyFails)
    ensures call.name != SpawnMethod && call.name != KillMethod ==>
              && r.queue == s.queue && r.active == s.active
              && r.enginesCreated == s.enginesCreated && r.destroyed == s.destroyed
              && r.replies == s.replies + [Completion(result, NotImplemented)]
  {
    if call.name == SpawnMethod then Spawn(s, call, result)
    else if call.name == KillMethod then Kill(s, call.isolateId, result, destroyFails)
    else s.(replies := s.replies + [Completion(result, NotImplemented)])
  }

  /** The head of the queue: started exactly once, on an engine already made, both channels set. */
  predicate InFlight(r: Request, enginesCreated: nat)
  {
    r.starts == 1 && r.engine.Some? && r.engine.value < enginesCreated
    && r.startupChannel && r.controlChannel
  }

  /** A request behind the head: never started, no engine, no channel. */
  predicate Waiting(r: Request)
  {
    r.starts == 0 && r.engine.None? && !r.startupChannel && !r.controlChannel
  }

  /** A registry entry: keyed by its own id, started exactly once, replied to, startup channel dropped. */
  predicate Activated(r: Request, id: string, enginesCreated: nat)
  {
    r.isolateId == id && r.starts == 1 && r.engine.Some? && r.engine.value < enginesCreated
    && r.result.None? && !r.startupChannel && r.controlChannel
  }

  /**
   * The invariant of every reachable state: every queued request still awaits
   * its reply; only the head has been started, and exactly once; every active
   * isolate was started exactly once and has been replied to.
   */
  predicate Inv(s: State)
  {
    && (forall i :: 0 <= i < |s.queue| ==> s.queue[i].result.Some?)
    && (s.queue != [] ==> InFlight(s.queue[0], s.enginesCreated))
    && (forall i :: 1 <= i < |s.queue| ==> Waiting(s.queue[i]))
    && (forall id :: id in s.active ==> Activated(s.active[id], id, s.enginesCreated))
    && EnginesApart(s)
  }

  /**
   * The live engines (the head's and the active isolates') are pairwise
   * distinct and none of them has been destroyed; only engines that were
   * created can have been destroyed.
   */
  predicate EnginesApart(s: State)
  {
    && (forall id1, id2 :: id1 in s.active && id2 in s.active && id1 != id2 ==>
          s.active[id1].engine != s.active[id2].engine)
    && (s.queue != [] ==> forall id :: id in s.active ==> s.active[id].engine != s.queue[0].engine)
    && (forall id :: id in s.active && s.active[id].engine.Some? ==> s.active[id].engine.value !in s.destroyed)
    && (s.queue != [] && s.queue[0].engine.Some? ==> s.queue[0].engine.value !in s.destroyed)
    && (forall e :: e in s.destroyed ==> e < s.enginesCreated)
  }

  lemma InitialInv()
    ensures Inv(Initial()) && Initial().queue == [] && Initial().active == map[]
  {
  }

  lemma SpawnKeepsInv(s: State, call: MethodCall, result: ResultId)
    requires Inv(s)
    ensures Inv(Spawn(s, call, result))
  {
  }

  lemma HandshakeKeepsInv(s: State)
    requires Inv(s)
    ensures HeadPending(s) && Inv(Handshake(s))
  {
  }

  lemma KillKeepsInv(s: State, isolateId: string, result: ResultId, destroyFails: bool)
    requires Inv(s)
    ensures Inv(Kill(s, isolateId, result, destroyFails))
  {
  }

  /**
   * kill(id) destroys no engine that is still live afterwards: the engines of
   * the other active isolates and of the isolate being started survive it.
   */
  lemma KillSparesOtherEngines(s: State, isolateId: string, result: ResultId, destroyFails: bool)
    requires Inv(s)
    ensures var r := Kill(s, isolateId, result, destroyFails);
            && (forall id :: id in r.active ==> r.active[id].engine.value !in r.destroyed)
            && (r.queue != [] ==> r.queue[0].engine.value !in r.destroyed)
  {
  }

  lemma OnMethodCallKeepsInv(s: State, call: MethodCall, result: ResultId, destroyFails: bool)
    requires Inv(s)
    ensures Inv(OnMethodCall(s, call, result, destroyFails))
  {
  }

  /** At most one request is in flight: in a reachable state only the head may have been started. */
  lemma AtMostOneStarted(s: State, i: nat, j: nat)
    requires Inv(s)
    requires i < |s.queue| && j < |s.queue|
    requires s.queue[i].starts > 0 && s.queue[j].starts > 0
    ensures i == j == 0
  {
  }
}

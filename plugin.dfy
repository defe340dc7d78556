/*
 * The plugin object itself: IsolateHolder records that are updated in place,
 * a queue of holders and a registry from isolate id to holder. Each event
 * handler is proved to change the abstract value View() exactly as the
 * matching function of IsolateProtocol says, and to keep the invariant.
 */
module Plugin {
  import opened IsolateProtocol

  /** One spawn request; the same object moves from the queue to the registry. */
  class IsolateHolder {
    var engine: Option<EngineId>
    var isolateId: string
    var startupChannel: bool
    var controlChannel: bool
    var entryPoint: Option<Int64>
    var result: Option<ResultId>
    /** How many times a startup was run for this holder. */
    ghost var starts: nat

    constructor (isolateId: string, entryPoint: Option<Int64>, result: ResultId)
      ensures Snapshot() == Request(isolateId, entryPoint, Some(result), None, false, false, 0)
    {
      this.engine := None;
      this.isolateId := isolateId;
      this.startupChannel := false;
      this.controlChannel := false;
      this.entryPoint := entryPoint;
      this.result := Some(result);
      this.starts := 0;
    }

    ghost function Snapshot(): Request
      reads this
    {
      Request(isolateId, entryPoint, result, engine, startupChannel, controlChannel, starts)
    }
  }

  class DartUiIsolatePlugin {
    var queuedIsolates: seq<IsolateHolder>
    var activeIsolates: map<string, IsolateHolder>
    /** The engine group (the field engineGroup): how many engines it has created. */
    var enginesCreated: nat
    /** Log of the replies delivered through the callers' Result objects, in order. */
    ghost var replies: seq<Completion>
    /** Log of the engines destroyed so far. */
    ghost var destroyedEngines: set<EngineId>

    ghost function QueueView(): seq<Request>
      reads this, queuedIsolates
    {
      seq(|queuedIsolates|, i reads this, queuedIsolates requires 0 <= i < |queuedIsolates| =>
        queuedIsolates[i].Snapshot())
    }

    ghost function ActiveView(): map<string, Request>
      reads this, activeIsolates.Values
    {
      map id | id in activeIsolates :: activeIsolates[id].Snapshot()
    }

    ghost function View(): State
      reads this, queuedIsolates, activeIsolates.Values
    {
      State(QueueView(), ActiveView(), replies, enginesCreated, destroyedEngines)
    }

    /** No holder is queued twice, and no queued holder is also registered. */
    ghost predicate Separate()
      reads this
    {
      && (forall i, j :: 0 <= i < j < |queuedIsolates| ==> queuedIsolates[i] != queuedIsolates[j])
      && (forall i :: 0 <= i < |queuedIsolates| ==> queuedIsolates[i] !in activeIsolates.Values)
    }

    ghost predicate Valid()
      reads this, queuedIsolates, activeIsolates.Values
    {
      Separate() && Inv(View())
    }

    /** setupChannel: both the queue and the registry start empty. */
    constructor ()
      ensures Valid()
      ensures queuedIsolates == [] && activeIsolates == map[]
      ensures View() == Initial()
    {
      queuedIsolates := [];
      activeIsolates := map[];
      replies := [];
      enginesCreated := 0;
      destroyedEngines := {};
      new;
      assert View() == Initial();
    }

    /** startNextIsolate: peek at the head and start it; the engine work is abstract. */
    method StartNextIsolate()
      requires Separate() && |queuedIsolates| > 0
      modifies this`enginesCreated, queuedIsolates[0]
      ensures queuedIsolates == old(queuedIsolates) && activeIsolates == old(activeIsolates)
      ensures View() == StartHead(old(View()))
    {
      var isolate := queuedIsolates[0];
      isolate.engine := Some(enginesCreated);
      enginesCreated := enginesCreated + 1;
      isolate.controlChannel := true;
      isolate.startupChannel := true;
      isolate.starts := isolate.starts + 1;
      assert QueueView() == old(QueueView())[0 := isolate.Snapshot()];
      assert ActiveView() == old(ActiveView());
    }

    /** The "spawn_isolate" branch of onMethodCall. */
    method SpawnIsolate(call: MethodCall, result: ResultId)
      requires Valid()
      modifies this
      ensures Valid()
      ensures View() == Spawn(old(View()), call, result)
    {
      var isolate := new IsolateHolder(call.isolateId, NormaliseEntryPoint(call.entryPoint), result);
      queuedIsolates := queuedIsolates + [isolate];
      assert QueueView() == old(QueueView()) + [NewRequest(call, result)];
      assert ActiveView() == old(ActiveView());
      if |queuedIsolates| == 1 {
        StartNextIsolate();
      }
      SpawnKeepsInv(old(View()), call, result);
    }

    /** The "kill_isolate" branch of onMethodCall; the reply is always true. */
    method KillIsolate(isolateId: string, result: ResultId, destroyFails: bool)
      requires Valid()
      modifies this
      ensures Valid()
      ensures View() == Kill(old(View()), isolateId, result, destroyFails)
    {
      // destroy the registered engine; a missing entry or a failing destroy is swallowed
      if isolateId in activeIsolates && activeIsolates[isolateId].engine.Some? && !destroyFails {
        destroyedEngines := destroyedEngines + {activeIsolates[isolateId].engine.value};
      }
      activeIsolates := activeIsolates - {isolateId};
      replies := replies + [Completion(result, Success(Bool(true)))];
      assert QueueView() == old(QueueView());
      assert ActiveView() == old(ActiveView()) - {isolateId};
      KillKeepsInv(old(View()), isolateId, result, destroyFails);
    }

    method OnMethodCall(call: MethodCall, result: ResultId, destroyFails: bool)
      requires Valid()
      modifies this
      ensures Valid()
      ensures View() == IsolateProtocol.OnMethodCall(old(View()), call, result, destroyFails)
    {
      if call.name == SpawnMethod {
        SpawnIsolate(call, result);
      } else if call.name == KillMethod {
        KillIsolate(call.isolateId, result, destroyFails);
      } else {
        replies := replies + [Completion(result, NotImplemented)];
        assert QueueView() == old(QueueView()) && ActiveView() == old(ActiveView());
        OnMethodCallKeepsInv(old(View()), call, result, destroyFails);
      }
    }

    /** onListen: the readiness handshake of the isolate being started. */
    method OnListen()
      requires Valid()
      modifies this, queuedIsolates
      ensures Valid()
      ensures View() == Handshake(old(View()))
    {
      if |queuedIsolates| != 0 {
        PromoteHead();
      }
      if |queuedIsolates| != 0 {
        StartNextIsolate();
      }
      HandshakeKeepsInv(old(View()));
    }

    /** The part of onListen that moves the head holder into the registry and answers its caller. */
    method PromoteHead()
      requires Separate() && |queuedIsolates| > 0 && queuedIsolates[0].result.Some?
      modifies this, queuedIsolates[0]
      ensures Separate() && queuedIsolates == old(queuedIsolates)[1..]
      ensures activeIsolates == old(activeIsolates)[old(queuedIsolates[0].isolateId) := old(queuedIsolates[0])]
      ensures View() == Promote(old(View()))
    {
      var isolate := queuedIsolates[0];
      queuedIsolates := queuedIsolates[1..];
      activeIsolates := activeIsolates[isolate.isolateId := isolate];
      replies := replies + [Completion(isolate.result.value, Success(Null))];
      isolate.startupChannel := false;
      isolate.result := None;
      assert QueueView() == old(QueueView())[1..];
      assert ActiveView() == old(ActiveView())[isolate.isolateId := Retire(old(isolate.Snapshot()))];
    }
  }
}

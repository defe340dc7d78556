# dart_ui_isolate: the spawn / handshake / kill state machine

The Android side of the dart_ui_isolate Flutter plugin starts "UI isolates":
each one is a Dart entry point run on its own Flutter engine. The class
`DartUiIsolatePlugin` owns two pieces of state. The first is a FIFO queue of
pending `IsolateHolder` spawn requests. The second is a registry from isolate
id to holder. Three handlers drive the state:

- `spawn_isolate` stores the entry-point token and appends a holder to the
  queue. It starts that holder only when it is the sole queued request.
- `onListen` is the readiness handshake of the engine being started. It pops
  the head, registers it by id, answers the caller's pending Result with
  success, and starts the next head.
- `kill_isolate` destroys the registered engine, swallows any error, drops
  the entry and always answers `true`.

The project has three modules:

- `IsolateProtocol` (protocol.dfy) states the machine over values. `State`
  holds the queue, the registry, the log of replies delivered to callers'
  Result objects, and the engine group's state (engines created, engines
  destroyed). There is one function per handler and an invariant `Inv`,
  with lemmas that every handler keeps it.
- `Traces` (traces.dfy) runs any sequence of events from a reachable state.
  It proves the order, once-only and one-engine-per-start properties on
  what callers observe.
- `Plugin` (plugin.dfy) is the object itself. The class `IsolateHolder` has
  fields that are assigned in place. The class `DartUiIsolatePlugin` has a
  `seq` queue and a `map` registry of holders. Each method is proved to move
  the abstract value `View()` exactly as the matching `IsolateProtocol`
  function says, and to keep `Valid()`. `Valid()` says the holders are not
  aliased between queue positions or between the queue and the registry,
  and that `Inv` holds.

Starting an engine (`startNextIsolate`) is modelled as an abstract step,
`IsolateProtocol.Launch`. The head gets a fresh engine handle, its control
and startup channels are set, and a ghost counter `starts` on the holder is
incremented. Nothing else happens. The handle is the engine group's count of
engines created so far.

## Model

| member | source | states |
|---|---|---|
| IsolateProtocol.NormaliseEntryPoint | android/src/main/java/com/lib/dart_ui_isolate/dart_ui_isolate/DartUiIsolatePlugin.java:96-104 | the stored token is set exactly when the argument is a Long or an Integer; a Long is kept unchanged, an Integer becomes the Long of equal value, anything else leaves it null |
| IsolateProtocol.StartHead | android/src/main/java/com/lib/dart_ui_isolate/dart_ui_isolate/DartUiIsolatePlugin.java:69-87 | a startup only peeks: queue length and every non-head element unchanged, the head keeps its id, token and Result, is started once more, gets a newly created engine and both channels; registry and replies untouched |
| IsolateProtocol.Spawn | android/src/main/java/com/lib/dart_ui_isolate/dart_ui_isolate/DartUiIsolatePlugin.java:92-114 | exactly one request is appended at the tail with the call's id, normalised token and Result; earlier elements are unchanged and in order; the registry and replies are unchanged; a startup (one engine created) happens if and only if the queue was empty before |
| IsolateProtocol.Handshake | android/src/main/java/com/lib/dart_ui_isolate/dart_ui_isolate/DartUiIsolatePlugin.java:136-152 | on an empty queue nothing changes; otherwise exactly the head is removed, the rest keep their order, the head is put into the registry under its id (replacing any earlier entry) with Result and startup channel cleared, its Result is answered success(null) once, and the new head, if any, is started |
| IsolateProtocol.Kill | android/src/main/java/com/lib/dart_ui_isolate/dart_ui_isolate/DartUiIsolatePlugin.java:116-128 | afterwards the id is absent, every other registry entry and the whole queue are unchanged, the reply is true whether or not the id was active; only that isolate's engine can be destroyed, and it is when destroy does not fail |
| IsolateProtocol.OnMethodCall | android/src/main/java/com/lib/dart_ui_isolate/dart_ui_isolate/DartUiIsolatePlugin.java:89-133 | "spawn_isolate" and "kill_isolate" go to their branches; any other method changes no state and is answered not-implemented |
| IsolateProtocol.InitialInv | android/src/main/java/com/lib/dart_ui_isolate/dart_ui_isolate/DartUiIsolatePlugin.java:60-67 | after setup the queue and the registry are empty and the invariant holds |
| IsolateProtocol.SpawnKeepsInv | android/src/main/java/com/lib/dart_ui_isolate/dart_ui_isolate/DartUiIsolatePlugin.java:109-114 | spawn keeps the invariant: the head started exactly once, no other queued request started, every registered isolate started exactly once and answered, and the live engines (head and registered) pairwise distinct and not destroyed |
| IsolateProtocol.HandshakeKeepsInv | android/src/main/java/com/lib/dart_ui_isolate/dart_ui_isolate/DartUiIsolatePlugin.java:137-151 | the handshake finds the head's Result still pending and keeps the same invariant |
| IsolateProtocol.KillKeepsInv | android/src/main/java/com/lib/dart_ui_isolate/dart_ui_isolate/DartUiIsolatePlugin.java:118-128 | kill keeps the invariant |
| IsolateProtocol.KillSparesOtherEngines | android/src/main/java/com/lib/dart_ui_isolate/dart_ui_isolate/DartUiIsolatePlugin.java:120-126 | in a reachable state, kill(id) leaves every engine still live afterwards undestroyed: those of the other registered isolates and of the isolate being started |
| IsolateProtocol.OnMethodCallKeepsInv | android/src/main/java/com/lib/dart_ui_isolate/dart_ui_isolate/DartUiIsolatePlugin.java:89-133 | every method call keeps the invariant |
| IsolateProtocol.AtMostOneStarted | android/src/main/java/com/lib/dart_ui_isolate/dart_ui_isolate/DartUiIsolatePlugin.java:111-114 | in a reachable state at most one request is in flight: any started queued request is the head |
| Traces.Step | android/src/main/java/com/lib/dart_ui_isolate/dart_ui_isolate/DartUiIsolatePlugin.java:89-152 | every event handled on the platform thread, a method call or a handshake, keeps the invariant |
| Traces.Run | android/src/main/java/com/lib/dart_ui_isolate/dart_ui_isolate/DartUiIsolatePlugin.java:89-152 | any sequence of events keeps the invariant, and replies already delivered are never changed or withdrawn |
| Traces.HandshakesFollowArrivalOrder | android/src/main/java/com/lib/dart_ui_isolate/dart_ui_isolate/DartUiIsolatePlugin.java:109-146 | FIFO: the Results pending at the start, then those of the run's spawn calls in call order, are exactly the Results the run's handshakes answered, in answer order, followed by those still pending |
| Traces.HandshakesAnswerOnce | android/src/main/java/com/lib/dart_ui_isolate/dart_ui_isolate/DartUiIsolatePlugin.java:144-146 | no caller's Result is answered twice by handshakes when the callers' Results are distinct |
| Traces.OneEnginePerStart | android/src/main/java/com/lib/dart_ui_isolate/dart_ui_isolate/DartUiIsolatePlugin.java:109-151 | each request is started exactly once: engines created over a run equal the requests promoted plus the one in flight at the end, minus the one in flight at the start |
| Traces.TwoSpawnsThenHandshake | android/src/main/java/com/lib/dart_ui_isolate/dart_ui_isolate/DartUiIsolatePlugin.java:92-151 | spawn "a", spawn "b", one handshake: "a" is registered and answered, "b" is the started head |
| Traces.StaleHandshakeIgnored | android/src/main/java/com/lib/dart_ui_isolate/dart_ui_isolate/DartUiIsolatePlugin.java:137-151 | a handshake with an empty queue has no effect on the rest of any run |
| Traces.KillThenSpawnSameId | android/src/main/java/com/lib/dart_ui_isolate/dart_ui_isolate/DartUiIsolatePlugin.java:116-128 | after kill(id) the id is absent, and a spawn with the same id is queued as a new request |
| Plugin.IsolateHolder.constructor | android/src/main/java/com/lib/dart_ui_isolate/dart_ui_isolate/DartUiIsolatePlugin.java:32-41 | a new holder has the call's id, token and Result, no engine, no channels and has never been started |
| Plugin.DartUiIsolatePlugin.constructor | android/src/main/java/com/lib/dart_ui_isolate/dart_ui_isolate/DartUiIsolatePlugin.java:60-67 | setup leaves the queue and the registry empty and the object valid |
| Plugin.DartUiIsolatePlugin.StartNextIsolate | android/src/main/java/com/lib/dart_ui_isolate/dart_ui_isolate/DartUiIsolatePlugin.java:69-87 | updates only the head holder and the engine count, leaves the queue and registry fields as they were, and the abstract state follows StartHead |
| Plugin.DartUiIsolatePlugin.SpawnIsolate | android/src/main/java/com/lib/dart_ui_isolate/dart_ui_isolate/DartUiIsolatePlugin.java:92-114 | keeps the object valid and moves the abstract state as Spawn |
| Plugin.DartUiIsolatePlugin.KillIsolate | android/src/main/java/com/lib/dart_ui_isolate/dart_ui_isolate/DartUiIsolatePlugin.java:116-128 | keeps the object valid and moves the abstract state as Kill |
| Plugin.DartUiIsolatePlugin.OnMethodCall | android/src/main/java/com/lib/dart_ui_isolate/dart_ui_isolate/DartUiIsolatePlugin.java:89-133 | keeps the object valid and moves the abstract state as the dispatch OnMethodCall |
| Plugin.DartUiIsolatePlugin.PromoteHead | android/src/main/java/com/lib/dart_ui_isolate/dart_ui_isolate/DartUiIsolatePlugin.java:137-147 | the head holder leaves the queue and that same object, not a copy, is registered under its id (replacing any earlier entry); its Result and startup channel are then cleared in place, and the abstract state follows Promote |
| Plugin.DartUiIsolatePlugin.OnListen | android/src/main/java/com/lib/dart_ui_isolate/dart_ui_isolate/DartUiIsolatePlugin.java:135-152 | keeps the object valid, including when the popped holder, now registered, is updated in place, and moves the abstract state as Handshake |

## Left out

- Flutter engine and channel plumbing is not modelled. This covers `FlutterInjector` initialisation, `FlutterCallbackInformation.lookupCallbackInformation`, `FlutterEngineGroup.createAndRunEngine`, and `MethodChannel`/`EventChannel` construction and handler wiring. A startup is the abstract step `Launch`.
- IsolateProtocol.StartHead: always succeeds. In the source, a holder whose token is null (a non-numeric argument) makes the unboxing for `lookupCallbackInformation` throw. An unknown token makes the later `cbInfo` dereference throw. Either exception leaves the head queued and never started, so later requests stall. The source has no failure path for this, and the model does not invent one.
- The `EventSink` emission in `onListen` (`success(isolateId)`, `endOfStream`) is not modelled. Of a caller's `Result`, only which reply it received is recorded, in `replies`.
- `engine.destroy()` is modelled by the parameter `destroyFails`: a destroy that does not fail adds the engine to the ghost log `destroyed`, and one that fails changes nothing. The replies sent to callers are likewise a ghost log, not a field of the plugin. What a partly failed destroy leaves behind is not modelled. The exception's stack-trace printing is logging.
- Null arguments are not modelled. This covers a null `isolate_id` (Java's `HashMap` accepts a null key) and a null `Result`. Ids are strings.
- `onAttachedToEngine`, `onDetachedFromEngine` and `onCancel` are not modelled. They are platform bootstrapping with no logic.
- Threading is not modelled. Every handler runs on the single platform thread, so each is an atomic method.
- The code has no `Failed` transition, does not reject duplicate ids, and does not attribute a handshake to the engine that sent it. The model has none of these either. A spawn may reuse an id that is queued or active. A later handshake for that id replaces the registry entry (`HashMap.put`), and the replaced engine is left running and unreachable. `onListen` ignores which engine signalled and pops the head.

# PyWebIO session registry and context resolver, in Dafny

This project models the part of `pywebio/session/__init__.py` that decides which
session implementation serves a call, and the small interactive calls built on it.

- **Registry** (`SessionRegistry`): the process-wide list `_active_session_cls` of
  active implementation classes (CoroutineBasedSession, ThreadBasedSession,
  ScriptModeSession). Registering a task function classifies it by shape and appends
  its class once. Registration is refused once script mode is active. Resolving the
  current implementation bootstraps script mode when the list is empty. With one
  class it returns that class; with several it probes them in registration order.
  The list is a field of the `Registry` class, changed in place by `Register` and
  `Resolve`. The pure functions `RegisterOn` and `ResolveOn` specify those methods.
  Lemmas over whole call histories (`Run`) prove the invariant: no class twice, and
  ScriptModeSession, when present, is the only entry. They also prove that the
  script-mode server starts at most once.
- **Decorators** (`Decorators`): `check_session_impl` as a guard over the resolved
  class, and `chose_impl` as the choice between coroutine wrapping and synchronous
  running.
- **Interactive calls** (`Interactions`): the `hold` loop over the results of
  `next_client_event`, the reply check of `eval_js`, the option-key check of
  `set_env`, and what `defer_call` returns.

Outside the model, and turned into parameters:
- What an implementation class's `get_current_session` does from the caller's
  context is the oracle `lookup: Kind -> Lookup`. It either finds the session
  (`Found`) or raises an exception (`Raised(e)`). The probe catches only
  SessionNotFoundException; any other exception stops the probe and escapes.
- Inheritance between the implementation classes is the relation
  `inherits: (Kind, Kind) -> bool`. `IsSubclass` adds reflexivity, as Python's
  `issubclass` does.
- The results of successive `next_client_event` calls are a sequence of `Delivery`
  values: an event dict or a raised exception.
- The wrapped function of a guarded call is a value `() -> Result<R>`.

Three behaviours of the code worth noting:
- With exactly one class active, `get_session_implement` returns that class without
  asking it for a session (lines 60-61). A caller that no session knows only finds
  out later.
- The capability guard tests `issubclass`, not equality (line 96). A subclass of the
  required class passes.
- `chose_impl` picks coroutine wrapping only when the class *equals*
  CoroutineBasedSession (line 119). ScriptModeSession runs synchronously like
  ThreadBasedSession.

## Model

| member | source | states |
|---|---|---|
| `Kinds.ClassifyTarget` | pywebio/session/__init__.py:39-42 | a coroutine or generator function gets CoroutineBasedSession, any other callable ThreadBasedSession; registration never picks script mode |
| `SessionRegistry.RegisterOn` | pywebio/session/__init__.py:37-50 | registration raises RuntimeError "Already in script mode, can't start server" exactly when ScriptModeSession is active, and then leaves the list unchanged; otherwise it returns the classified class, which is then in the list; earlier entries keep their places; at most that one class is appended, so the list stays duplicate-free |
| `SessionRegistry.ProbeInOrder` | pywebio/session/__init__.py:64-71 | a returned class is an active class whose lookup succeeds; SessionNotFoundException comes out exactly when every lookup raised it; any other exception that comes out was raised by the lookup of an active class |
| `SessionRegistry.ProbeStopsAtFirstUncaught` | pywebio/session/__init__.py:64-69 | the probe stops at the earliest class, in registration order, whose lookup is not a caught SessionNotFoundException: it returns that class if the lookup succeeds and lets the lookup's exception escape otherwise |
| `SessionRegistry.ResolveOn` | pywebio/session/__init__.py:53-71 | an empty list becomes [ScriptModeSession], the server is started, and ScriptModeSession is returned; otherwise the list is unchanged; with one class that class is returned without probing; with several, the outcome of the probe in registration order; well-formedness is kept |
| `SessionRegistry.ResolveNotFoundOnlyWhenNoneFinds` | pywebio/session/__init__.py:59-71 | resolution raises SessionNotFoundException exactly when several classes are active and every lookup raised it; any other exception was raised by an active class's lookup; a returned class is always an active one |
| `SessionRegistry.BootstrapBlocksRegistration` | pywebio/session/__init__.py:44-57 | an interactive call with nothing registered returns ScriptModeSession and starts the server; after it, whatever further registrations and resolutions happen, every registration is refused and leaves the list [ScriptModeSession] |
| `SessionRegistry.RunKeepsWellFormed` | pywebio/session/__init__.py:44-56 | every history of registrations and resolutions keeps the list duplicate-free, with ScriptModeSession alone whenever it is present |
| `SessionRegistry.RunOnlyAppends` | pywebio/session/__init__.py:47-56 | the list is only ever appended to: any earlier list is a prefix of every later one, so it holds classes in first-registration order |
| `SessionRegistry.ScriptModeIsFinal` | pywebio/session/__init__.py:44-61 | once the list is [ScriptModeSession], no history changes it |
| `SessionRegistry.ServerStartedWithScriptMode` | pywebio/session/__init__.py:55-57 | the script-mode server is started once each time ScriptModeSession enters the list |
| `SessionRegistry.ServerStartedAtMostOnce` | pywebio/session/__init__.py:55-57 | from an empty list, any history starts the script-mode server at most once |
| `SessionRegistry.Registry.constructor` | pywebio/session/__init__.py:31 | the list starts empty and no server has been started |
| `SessionRegistry.Registry.Register` | pywebio/session/__init__.py:37-50 | changes the list and returns as `RegisterOn` says, keeping the class invariant |
| `SessionRegistry.Registry.Probe` | pywebio/session/__init__.py:64-69 | the loop returns exactly `ProbeInOrder` of the list, stopping at the first lookup it does not catch |
| `SessionRegistry.Registry.Resolve` | pywebio/session/__init__.py:53-71 | changes the list, counts the server start and returns as `ResolveOn` says, keeping the class invariant |
| `SessionRegistry.Registry.GuardedCall` | pywebio/session/__init__.py:91-104 | a guarded call resolves the class (bootstrapping script mode if needed) and then behaves as `CheckSessionImpl` on that outcome |
| `SessionRegistry.Registry.ChooseDispatch` | pywebio/session/__init__.py:116-122 | a `chose_impl` call resolves the class and then picks the branch `ChoseImpl` gives; a failed lookup propagates |
| `Decorators.CheckSessionImpl` | pywebio/session/__init__.py:87-108 | a failed lookup propagates; a class that is not a subclass of the required one gives a RuntimeError; otherwise the wrapped call's outcome is returned unchanged |
| `Decorators.MismatchNeverCallsWrapped` | pywebio/session/__init__.py:96-104 | on a mismatch the outcome does not depend on the wrapped function, so it is never called, and the RuntimeError names the function, the required class and the current class |
| `Decorators.MismatchMessageNamesAll` | pywebio/session/__init__.py:97-103 | the mismatch message contains the function name, the required class name and the current class name |
| `Decorators.ChoseImpl` | pywebio/session/__init__.py:116-122 | coroutine wrapping is chosen exactly when the class equals CoroutineBasedSession |
| `Interactions.FirstRaised` | pywebio/session/__init__.py:143-147 | the position of the first `next_client_event` call that raises; every call before it returned an event |
| `Interactions.Hold` | pywebio/session/__init__.py:133-147 | the loop discards events until the first exception and ends as `HoldOn` says |
| `Interactions.HoldReturnsIffSessionException` | pywebio/session/__init__.py:143-147 | `hold` returns normally after discarding i events exactly when the first i calls return events and call i raises a SessionException |
| `Interactions.HoldPropagatesOtherExceptions` | pywebio/session/__init__.py:143-147 | when the first exception is not a SessionException, it escapes from `hold` unchanged |
| `Interactions.EvalJsReply` | pywebio/session/__init__.py:231-234 | the single reply yields its `data` exactly when it is an event of kind 'js_yield' with a data field; another kind raises AssertionError with the internal-error message; an exception from `next_client_event` propagates |
| `Interactions.EvalJsRoundTrip` | pywebio/session/__init__.py:222-234 | any JSON value the client reports in a 'js_yield' reply (null, booleans, integers, floats, strings, arrays, objects) is what `eval_js` returns |
| `Interactions.SetEnv` | pywebio/session/__init__.py:372-374 | the options are sent unchanged in one `set_env` message exactly when every key is title, output_animation, auto_scroll_bottom or http_pull_interval (the empty set included); otherwise AssertionError and no message |
| `Interactions.SetEnvRefusesUnknownKey` | pywebio/session/__init__.py:372-373 | one unknown key makes the whole call fail, whatever the other keys are |
| `Interactions.DeferCall` | pywebio/session/__init__.py:302-303 | `func` is returned unchanged and is appended after the functions already deferred |
| `Interactions.DeferAllKeepsOrder` | pywebio/session/__init__.py:286-303 | deferring functions one after another keeps them in the order they were deferred |

## Left out

- `_start_script_mode_server` (lines 74-76) is server I/O. It appears only as the ghost counter `serverStarts` and the flag `ResolveStep.startsServer`.
- The implementation classes CoroutineBasedSession, ThreadBasedSession and ScriptModeSession (lines 25-26) are not part of this model. Their `get_current_session` is the `lookup` oracle; inheritance among them is the `inherits` relation.
- ResolveOn: takes `_start_script_mode_server` (line 57) never to fail. If it raised, ScriptModeSession would stay in the list while the call itself failed; the model does not capture that case.
- The exception hierarchy of `pywebio.exceptions` is not part of this model. SessionNotFoundException and SessionClosedException are both taken as SessionException subclasses (`IsSessionException`).
- `get_current_session` and `get_current_task_id` (lines 79-84) forward to the implementation class, which is outside the model.
- `run_async`, `run_asyncio_coroutine` and `register_thread` (lines 237-283) hand threads and coroutines to the session. Only their guard is modelled, as `GuardedCall` with the required class.
- `to_coroutine` and `run_as_function` (line 28) drive generators. Only the branch `chose_impl` takes is modelled.
- `next_client_event` (lines 127-130) is the suspension primitive. Its successive results are the input sequence of `Hold` and the input of `EvalJsReply`.
- Hold: `while True` blocks forever while events keep coming. Over a finite sequence of results the model ends with `StillHolding` when every result was an event.
- EvalJsReply: models the handling of the one reply only. The JavaScript text, the `run_script` message that carries it and the client's `|| null` are left out, as are `run_js`, `go_app` and `download`, which only build and send messages.
- DeferCall: takes the cleanup list of the session already found. Finding it can raise SessionNotFoundException, which is not modelled here. Running the cleanup functions belongs to the session classes, which are outside the model.
- `data()` and `get_info()` (lines 306-354, 388-442) return session attributes defined outside this file.
- Concurrency is not modelled: threads and coroutines of several sessions, and which session the caller belongs to, are reduced to the `lookup` oracle. Registry calls are taken to happen one at a time. The source holds no lock around the check-then-append at lines 44-48 and 55-57. Two threads resolving an empty list at once could both append ScriptModeSession and both start the server. So "duplicate-free" (`RunKeepsWellFormed`) and "server started at most once" (`ServerStartedAtMostOnce`) are proved for calls made one at a time only.
- SetEnv, EvalJsReply: modelled with assertions enabled. Under `python -O` the asserts at lines 232 and 372 are skipped. Then `set_env` sends any keys it is given, and `eval_js` returns the `data` of a reply of any kind (or raises KeyError when the reply has no `data`).

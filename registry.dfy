/** The process-wide list of active session implementations
    (`_active_session_cls`), registration of task functions into it, and
    the lookup of the implementation serving the caller. */
module SessionRegistry {
  import opened Exceptions
  import opened Kinds
  import Decorators

  const ScriptModeRefusal := "Already in script mode, can't start server"

  predicate NoDuplicates(kinds: seq<Kind>) {
    forall i, j | 0 <= i < j < |kinds| :: kinds[i] != kinds[j]
  }

  /** The invariant the list keeps: no class twice, and script mode, once
      active, is the only entry. */
  predicate WellFormed(active: seq<Kind>) {
    NoDuplicates(active) && (ScriptMode in active ==> active == [ScriptMode])
  }

  // ---------------------------------------------------------------------
  // Registration

  datatype RegisterStep = RegisterStep(active: seq<Kind>, outcome: Result<Kind>)

  /** `register_session_implement_for_target` on the list `active`: the list
      afterwards and what the call returns or raises. */
  function RegisterOn(active: seq<Kind>, isCoroutineFunction: bool, isGeneratorFunction: bool): (r: RegisterStep)
    ensures r.outcome.Err? <==> ScriptMode in active
    ensures r.outcome.Err? ==> r.active == active && r.outcome.error == RuntimeError(ScriptModeRefusal)
    ensures r.outcome.Ok? ==> r.outcome.value == ClassifyTarget(isCoroutineFunction, isGeneratorFunction)
    ensures r.outcome.Ok? ==> r.outcome.value in r.active
    // the earlier registrations keep their places; at most the new class is appended
    ensures |active| <= |r.active| <= |active| + 1 && r.active[..|active|] == active
    ensures forall k :: k in r.active <==> k in active || r.outcome == Ok(k)
    ensures WellFormed(active) ==> WellFormed(r.active)
  {
    var cls := ClassifyTarget(isCoroutineFunction, isGeneratorFunction);
    if ScriptMode in active then
      RegisterStep(active, Err(RuntimeError(ScriptModeRefusal)))
    else if cls !in active then
      RegisterStep(active + [cls], Ok(cls))
    else
      RegisterStep(active, Ok(cls))
  }

  // ---------------------------------------------------------------------
  // Resolution

  /** What `cls.get_current_session()` does when called from the caller's
      context: it finds the caller's session, or raises. */
  datatype Lookup = Found | Raises(error: Exception)

  /** The probe's `except SessionNotFoundException` clause catches this
      lookup and moves on to the next class. */
  predicate Caught(l: Lookup) {
    l == Raises(SessionNotFoundException)
  }

  /** The `for` loop of `get_session_implement` over `kinds`: the first class
      whose lookup succeeds, or the first exception the loop does not catch,
      or SessionNotFoundException when every lookup raised it. */
  function ProbeInOrder(kinds: seq<Kind>, lookup: Kind -> Lookup): (r: Result<Kind>)
    ensures r.Ok? ==> r.value in kinds && lookup(r.value) == Found
    ensures r == Err(SessionNotFoundException) <==> forall i | 0 <= i < |kinds| :: Caught(lookup(kinds[i]))
    ensures r.Err? && r.error != SessionNotFoundException ==>
              exists i | 0 <= i < |kinds| :: lookup(kinds[i]) == Raises(r.error)
  {
    if kinds == [] then Err(SessionNotFoundException)
    else match lookup(kinds[0])
         case Found => Ok(kinds[0])
         case Raises(e) =>
           if e == SessionNotFoundException then ProbeInOrder(kinds[1..], lookup)
           else Err(e)
  }

  /** The probe stops at the earliest class, in registration order, whose
      lookup is not caught: it returns that class if its lookup succeeds
      and lets its exception escape otherwise; later classes are not
      asked. */
  lemma {:induction false} ProbeStopsAtFirstUncaught(kinds: seq<Kind>, lookup: Kind -> Lookup, i: nat)
    requires i < |kinds| && !Caught(lookup(kinds[i]))
    requires forall j | 0 <= j < i :: Caught(lookup(kinds[j]))
    ensures ProbeInOrder(kinds, lookup) == match lookup(kinds[i])
                                           case Found => Ok(kinds[i])
                                           case Raises(e) => Err(e)
  {
    if i > 0 {
      assert Caught(lookup(kinds[0]));
      ProbeStopsAtFirstUncaught(kinds[1..], lookup, i - 1);
    }
  }

  datatype ResolveStep = ResolveStep(active: seq<Kind>, startsServer: bool, outcome: Result<Kind>)

  /** `get_session_implement` on the list `active`: the list afterwards,
      whether the script-mode server is started, and the class returned
      (or SessionNotFoundException). */
  function ResolveOn(active: seq<Kind>, lookup: Kind -> Lookup): (r: ResolveStep)
    ensures r.startsServer <==> active == []
    ensures active == [] ==> r.active == [ScriptMode] && r.outcome == Ok(ScriptMode)
    ensures active != [] ==> r.active == active
    ensures |active| == 1 ==> r.outcome == Ok(active[0])
    ensures |active| > 1 ==> r.outcome == ProbeInOrder(active, lookup)
    ensures WellFormed(active) ==> WellFormed(r.active)
  {
    var now := if active == [] then [ScriptMode] else active;
    var outcome :=
      if |now| == 1 then Ok(now[0])
      else ProbeInOrder(now, lookup);
    ResolveStep(now, active == [], outcome)
  }

  /** Resolution raises SessionNotFoundException exactly when several
      classes are active and every lookup raised it; any other exception
      comes from the lookup of an active class; a returned class is always
      an active one. */
  lemma ResolveNotFoundOnlyWhenNoneFinds(active: seq<Kind>, lookup: Kind -> Lookup)
    ensures ResolveOn(active, lookup).outcome == Err(SessionNotFoundException)
        <==> |active| > 1 && forall i | 0 <= i < |active| :: Caught(lookup(active[i]))
    ensures var r := ResolveOn(active, lookup).outcome;
            r.Err? && r.error != SessionNotFoundException ==>
              exists i | 0 <= i < |active| :: lookup(active[i]) == Raises(r.error)
    ensures ResolveOn(active, lookup).outcome.Ok? ==>
              ResolveOn(active, lookup).outcome.value in ResolveOn(active, lookup).active
  {
  }

  /** An interactive call made with nothing registered bootstraps script
      mode, after which a server can no longer be started: after any
      further history of calls, registration is still refused. */
  lemma {:induction false} BootstrapBlocksRegistration(lookup: Kind -> Lookup, calls: seq<Call>,
                                    isCoroutineFunction: bool, isGeneratorFunction: bool)
    ensures var boot := ResolveOn([], lookup);
            boot.outcome == Ok(ScriptMode) && boot.startsServer &&
            RegisterOn(Run(boot.active, calls), isCoroutineFunction, isGeneratorFunction)
              == RegisterStep([ScriptMode], Err(RuntimeError(ScriptModeRefusal)))
  {
    ScriptModeIsFinal(calls);
  }

  // ---------------------------------------------------------------------
  // Histories of calls

  /** A call that reads or changes the list. */
  datatype Call =
    | RegisterTarget(isCoroutineFunction: bool, isGeneratorFunction: bool)
    | ResolveCurrent(lookup: Kind -> Lookup)

  function Apply(active: seq<Kind>, call: Call): seq<Kind> {
    match call
    case RegisterTarget(c, g) => RegisterOn(active, c, g).active
    case ResolveCurrent(rec) => ResolveOn(active, rec).active
  }

  /** The list after the calls `calls`, made in order from `active`. */
  function Run(active: seq<Kind>, calls: seq<Call>): seq<Kind>
    decreases |calls|
  {
    if calls == [] then active else Run(Apply(active, calls[0]), calls[1..])
  }

  /** How many times the script-mode server is started during `calls`. */
  function ServerStarts(active: seq<Kind>, calls: seq<Call>): nat
    decreases |calls|
  {
    if calls == [] then 0
    else
      var starts := if calls[0].ResolveCurrent? && active == [] then 1 else 0;
      starts + ServerStarts(Apply(active, calls[0]), calls[1..])
  }

  /** Every history keeps the list well formed: duplicate-free, and script
      mode alone whenever it is present. */
  lemma {:induction false} RunKeepsWellFormed(active: seq<Kind>, calls: seq<Call>)
    requires WellFormed(active)
    ensures WellFormed(Run(active, calls))
    decreases |calls|
  {
    if calls != [] {
      RunKeepsWellFormed(Apply(active, calls[0]), calls[1..]);
    }
  }

  /** Registrations only ever append: the list before a history is a
      prefix of the list after it (first-registration order). */
  lemma {:induction false} RunOnlyAppends(active: seq<Kind>, calls: seq<Call>)
    ensures |active| <= |Run(active, calls)| && Run(active, calls)[..|active|] == active
    decreases |calls|
  {
    if calls != [] {
      var next := Apply(active, calls[0]);
      assert next[..|active|] == active;
      RunOnlyAppends(next, calls[1..]);
      assert Run(active, calls)[..|next|][..|active|] == Run(active, calls)[..|active|];
    }
  }

  /** Once in script mode, the process stays in script mode: every later
      registration is refused and every resolution returns ScriptMode. */
  lemma {:induction false} ScriptModeIsFinal(calls: seq<Call>)
    ensures Run([ScriptMode], calls) == [ScriptMode]
  {
    if calls != [] {
      ScriptModeIsFinal(calls[1..]);
    }
  }

  /** The script-mode server is started once for each time script mode
      becomes active, so at most once in the life of the process. */
  lemma {:induction false} ServerStartedWithScriptMode(active: seq<Kind>, calls: seq<Call>)
    ensures (if ScriptMode in active then 1 else 0) + ServerStarts(active, calls)
         == (if ScriptMode in Run(active, calls) then 1 else 0)
    decreases |calls|
  {
    if calls != [] {
      ServerStartedWithScriptMode(Apply(active, calls[0]), calls[1..]);
    }
  }

  lemma ServerStartedAtMostOnce(calls: seq<Call>)
    ensures ServerStarts([], calls) <= 1
  {
    ServerStartedWithScriptMode([], calls);
  }

  // ---------------------------------------------------------------------
  // The registry object

  class Registry {
    /** `_active_session_cls`, in registration order. */
    var active: seq<Kind>
    /** How many times `_start_script_mode_server` has run. */
    ghost var serverStarts: nat

    ghost predicate Valid()
      reads this
    {
      WellFormed(active) && serverStarts == (if ScriptMode in active then 1 else 0)
    }

    constructor ()
      ensures Valid() && active == [] && serverStarts == 0
    {
      active := [];
      serverStarts := 0;
    }

    /** `register_session_implement_for_target`. */
    method Register(isCoroutineFunction: bool, isGeneratorFunction: bool) returns (r: Result<Kind>)
      requires Valid()
      modifies this
      ensures Valid()
      ensures var step := RegisterOn(old(active), isCoroutineFunction, isGeneratorFunction);
              active == step.active && r == step.outcome
      ensures serverStarts == old(serverStarts)
    {
      var cls := ClassifyTarget(isCoroutineFunction, isGeneratorFunction);
      if ScriptMode in active {
        return Err(RuntimeError(ScriptModeRefusal));
      }
      if cls !in active {
        active := active + [cls];
      }
      return Ok(cls);
    }

    /** The `for` loop of `get_session_implement`: probe the active classes
      in registration order. */
    method Probe(lookup: Kind -> Lookup) returns (r: Result<Kind>)
      ensures r == ProbeInOrder(active, lookup)
    {
      var i := 0;
      while i < |active|
        invariant 0 <= i <= |active|
        invariant ProbeInOrder(active[i..], lookup) == ProbeInOrder(active, lookup)
      {
        var l := lookup(active[i]);
        if l.Found? {
          return Ok(active[i]);
        } else if !Caught(l) {
          return Err(l.error);
        }
        assert active[i..][1..] == active[i + 1..];
        i := i + 1;
      }
      return Err(SessionNotFoundException);
    }

    /** `get_session_implement`. */
    method Resolve(lookup: Kind -> Lookup) returns (r: Result<Kind>)
      requires Valid()
      modifies this
      ensures Valid()
      ensures var step := ResolveOn(old(active), lookup);
              active == step.active && r == step.outcome &&
              serverStarts == old(serverStarts) + (if step.startsServer then 1 else 0)
    {
      if active == [] {
        active := active + [ScriptMode];
        serverStarts := serverStarts + 1;  // _start_script_mode_server()
      }
      if |active| == 1 {
        return Ok(active[0]);
      }
      r := Probe(lookup);
    }

    /** A call to a function decorated with `check_session_impl(required)`. */
    method GuardedCall<R>(required: Kind, funcName: string, inherits: (Kind, Kind) -> bool,
                          lookup: Kind -> Lookup, wrapped: () -> Result<R>) returns (r: Result<R>)
      requires Valid()
      modifies this
      ensures Valid()
      ensures var step := ResolveOn(old(active), lookup);
              active == step.active &&
              r == Decorators.CheckSessionImpl(required, funcName, inherits, step.outcome, wrapped)
    {
      var current := Resolve(lookup);
      r := Decorators.CheckSessionImpl(required, funcName, inherits, current, wrapped);
    }

    /** A call to a function decorated with `chose_impl`: how its generator
      is run. */
    method ChooseDispatch(lookup: Kind -> Lookup) returns (r: Result<Decorators.Dispatch>)
      requires Valid()
      modifies this
      ensures Valid()
      ensures var step := ResolveOn(old(active), lookup);
              active == step.active &&
              r == (match step.outcome
                    case Ok(k) => Ok(Decorators.ChoseImpl(k))
                    case Err(e) => Err(e))
    {
      var current := Resolve(lookup);
      match current
      case Ok(k) => r := Ok(Decorators.ChoseImpl(k));
      case Err(e) => r := Err(e);
    }
  }
}

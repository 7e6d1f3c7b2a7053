/** The session implementations a process can have active. */
module Kinds {

  /** CoroutineBasedSession, ThreadBasedSession and ScriptModeSession. */
  datatype Kind = Coroutine | Thread | ScriptMode

  /** The class's `__name__`, used in error messages. */
  function ClassName(k: Kind): string {
    match k
    case Coroutine => "CoroutineBasedSession"
    case Thread => "ThreadBasedSession"
    case ScriptMode => "ScriptModeSession"
  }

  /** The implementation a task function is served by, chosen from its shape:
      coroutine functions and generator functions run coroutine-based,
      every other callable runs thread-based. Script mode is never chosen
      by registration. */
  function ClassifyTarget(isCoroutineFunction: bool, isGeneratorFunction: bool): (k: Kind)
    ensures k == Coroutine <==> isCoroutineFunction || isGeneratorFunction
    ensures k != ScriptMode
  {
    if isCoroutineFunction || isGeneratorFunction then Coroutine else Thread
  }

  /** `issubclass(sub, sup)`: every class is a subclass of itself; any
      other inheritance between the implementations is given by `inherits`,
      since the classes themselves are defined outside this model. */
  predicate IsSubclass(inherits: (Kind, Kind) -> bool, sub: Kind, sup: Kind) {
    sub == sup || inherits(sub, sup)
  }
}

/** The two decorators that consult the resolved implementation before
    running the function they wrap: `check_session_impl` and `chose_impl`. */
module Decorators {
  import opened Exceptions
  import opened Kinds

  /** `t` occurs in `s` starting at index `i`. */
  predicate OccursAt(s: string, t: string, i: int) {
    0 <= i <= |s| - |t| && s[i..i + |t|] == t
  }

  /** `t` occurs in `s` as a contiguous piece. */
  predicate Contains(s: string, t: string) {
    exists i | 0 <= i <= |s| :: OccursAt(s, t, i)
  }

  lemma SuffixContained(a: string, b: string)
    ensures Contains(a + b, b)
  {
    assert OccursAt(a + b, b, |a|);
  }

  lemma ExtendedRight(s: string, u: string, t: string)
    requires Contains(s, t)
    ensures Contains(s + u, t)
  {
    var i :| 0 <= i <= |s| && OccursAt(s, t, i);
    assert 0 <= i <= |s| - |t|;
    assert (s + u)[i..i + |t|] == s[i..i + |t|];
    assert OccursAt(s + u, t, i);
  }

  /** The RuntimeError text raised when `funcName` needs `required` but the
      caller is in a `current` session. */
  function MismatchMessage(funcName: string, required: Kind, current: Kind): string {
    "Only can invoke `" + funcName + "` in " + ClassName(required) + " context."
    + " You are now in " + ClassName(current) + " context"
  }

  /** The mismatch message names the function, the required class and the
      current class. */
  lemma MismatchMessageNamesAll(funcName: string, required: Kind, current: Kind)
    ensures Contains(MismatchMessage(funcName, required, current), funcName)
    ensures Contains(MismatchMessage(funcName, required, current), ClassName(required))
    ensures Contains(MismatchMessage(funcName, required, current), ClassName(current))
  {
    var p1, p2, p3 := "Only can invoke `", "` in ", " context.";
    var p4, p5 := " You are now in ", " context";
    var f, req, cur := funcName, ClassName(required), ClassName(current);
    SuffixContained(p1, f);
    ExtendedRight(p1 + f, p2, f);
    ExtendedRight(p1 + f + p2, req, f);
    ExtendedRight(p1 + f + p2 + req, p3, f);
    ExtendedRight(p1 + f + p2 + req + p3, p4, f);
    ExtendedRight(p1 + f + p2 + req + p3 + p4, cur, f);
    ExtendedRight(p1 + f + p2 + req + p3 + p4 + cur, p5, f);
    SuffixContained(p1 + f + p2, req);
    ExtendedRight(p1 + f + p2 + req, p3, req);
    ExtendedRight(p1 + f + p2 + req + p3, p4, req);
    ExtendedRight(p1 + f + p2 + req + p3 + p4, cur, req);
    ExtendedRight(p1 + f + p2 + req + p3 + p4 + cur, p5, req);
    SuffixContained(p1 + f + p2 + req + p3 + p4, cur);
    ExtendedRight(p1 + f + p2 + req + p3 + p4 + cur, p5, cur);
  }

  /** A function decorated with `check_session_impl(required)`, called
      after the implementation lookup gave `current`. A failed lookup
      propagates; a current class that is not a subclass of `required`
      raises RuntimeError; otherwise the wrapped call's outcome is
      returned as it is. */
  function CheckSessionImpl<R>(required: Kind, funcName: string, inherits: (Kind, Kind) -> bool,
                               current: Result<Kind>, wrapped: () -> Result<R>): (r: Result<R>)
    ensures current.Err? ==> r == Err(current.error)
    ensures current.Ok? && IsSubclass(inherits, current.value, required) ==> r == wrapped()
    ensures current.Ok? && !IsSubclass(inherits, current.value, required) ==> r.Err? && r.error.RuntimeError?
  {
    match current
    case Err(e) => Err(e)
    case Ok(impl) =>
      if !IsSubclass(inherits, impl, required) then
        Err(RuntimeError(MismatchMessage(funcName, required, impl)))
      else
        wrapped()
  }

  /** On a mismatch the wrapped function is never called: the outcome is
      the same whatever it would have done, and is a RuntimeError naming
      the function and both classes. */
  lemma MismatchNeverCallsWrapped<R>(required: Kind, funcName: string, inherits: (Kind, Kind) -> bool,
                                      current: Kind, w1: () -> Result<R>, w2: () -> Result<R>)
    requires !IsSubclass(inherits, current, required)
    ensures CheckSessionImpl(required, funcName, inherits, Ok(current), w1)
         == CheckSessionImpl(required, funcName, inherits, Ok(current), w2)
    ensures var r := CheckSessionImpl(required, funcName, inherits, Ok(current), w1);
            r.Err? && r.error.RuntimeError? &&
            Contains(r.error.message, funcName) &&
            Contains(r.error.message, ClassName(required)) &&
            Contains(r.error.message, ClassName(current))
  {
    MismatchMessageNamesAll(funcName, required, current);
  }

  /** How `chose_impl` runs the generator it wraps. */
  datatype Dispatch =
    | ToCoroutine    // returned as an awaitable, `to_coroutine(gen)`
    | RunAsFunction  // driven to completion on the caller's thread, `run_as_function(gen)`

  /** Coroutine wrapping is chosen exactly when the resolved class equals
      CoroutineBasedSession; thread-based and script-mode sessions both
      run the generator synchronously. */
  function ChoseImpl(current: Kind): (d: Dispatch)
    ensures d == ToCoroutine <==> current == Coroutine
  {
    if current == Coroutine then ToCoroutine else RunAsFunction
  }
}

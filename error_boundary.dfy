/**
 * The error boundary's state (`hasError`, `error`, `errorInfo`), the choice of what it
 * renders, and the process-wide registry of asynchronous error handlers.
 *
 * A thrown value is `Option<ErrorValue>`: JavaScript can throw `null`. Handlers are
 * compared by identity; a `Handler` is that identity, and whether it throws on an error
 * is the `throws` parameter.
 */
module ErrorBoundary {

  import opened Wrappers
  import opened Lists

  datatype ErrorValue = ErrorValue(message: string)
  datatype ErrorInfo = ErrorInfo(componentStack: string)

  datatype BoundaryState = BoundaryState(hasError: bool, error: Option<ErrorValue>, errorInfo: Option<ErrorInfo>)

  /** The state a boundary starts in, and returns to on reset. */
  const Clear := BoundaryState(false, None, None)

  /** `getDerivedStateFromError`: flag the error and record it; the component stack is kept. */
  function DeriveFromError(s: BoundaryState, thrown: Option<ErrorValue>): (t: BoundaryState)
    ensures t.hasError && t.error == thrown && t.errorInfo == s.errorInfo
  {
    s.(hasError := true, error := thrown)
  }

  /** `componentDidCatch`'s state update: the error and the component stack. */
  function DidCatch(s: BoundaryState, e: ErrorValue, info: ErrorInfo): (t: BoundaryState)
    ensures t.hasError == s.hasError && t.error == Some(e) && t.errorInfo == Some(info)
  {
    s.(error := Some(e), errorInfo := Some(info))
  }

  /** `handleReset`. */
  function Reset(s: BoundaryState): (t: BoundaryState)
    ensures t == Clear
  {
    BoundaryState(false, None, None)
  }

  /** What the boundary renders. */
  datatype View = Children | Fallback(error: ErrorValue, info: Option<ErrorInfo>) | DefaultPage(details: bool)

  /** `render`: the children unless an error is flagged and present; then the fallback if given, else the default page. */
  function Render(s: BoundaryState, hasFallback: bool, showErrorDetails: bool): (v: View)
    ensures v.Children? <==> !(s.hasError && s.error.Some?)
    ensures v.Fallback? <==> s.hasError && s.error.Some? && hasFallback
    ensures v.Fallback? ==> v.error == s.error.value && v.info == s.errorInfo
    ensures v.DefaultPage? ==> v.details == showErrorDetails
  {
    if s.hasError && s.error.Some? then
      if hasFallback then Fallback(s.error.value, s.errorInfo) else DefaultPage(showErrorDetails)
    else Children
  }

  /** After any error, a reset renders the children again. */
  lemma ResetRendersChildren(s: BoundaryState, thrown: Option<ErrorValue>, hasFallback: bool, details: bool)
    ensures Render(Reset(DeriveFromError(s, thrown)), hasFallback, details) == Children
  {
  }

  /** A caught error shows the fallback when one is given, the default page otherwise. */
  lemma CaughtErrorShown(s: BoundaryState, e: ErrorValue, info: ErrorInfo, hasFallback: bool, details: bool)
    ensures var t := DidCatch(DeriveFromError(s, Some(e)), e, info);
      Render(t, hasFallback, details) == if hasFallback then Fallback(e, Some(info)) else DefaultPage(details)
  {
  }

  /** A thrown `null` flags an error but leaves the children rendered. */
  lemma ThrownNullRendersChildren(s: BoundaryState, hasFallback: bool, details: bool)
    ensures var t := DeriveFromError(s, None);
      t.hasError && Render(t, hasFallback, details) == Children
  {
  }

  /** A handler's identity. */
  type Handler = nat

  /** `indexOf`: the first position of `h`, or -1. */
  function IndexOf(s: seq<Handler>, h: Handler): (i: int)
    ensures i == -1 <==> h !in s
    ensures i != -1 ==> 0 <= i < |s| && s[i] == h && h !in s[..i]
  {
    if s == [] then -1
    else if s[0] == h then 0
    else
      var i := IndexOf(s[1..], h);
      assert s[1..] == s[..|s|][1..];
      if i == -1 then -1
      else
        assert s[..i + 1] == [s[0]] + s[1..][..i];
        i + 1
  }

  /** The registry without the first occurrence of `h`; unchanged when `h` is not registered. */
  function RemoveFirst(s: seq<Handler>, h: Handler): (r: seq<Handler>)
    ensures h !in s ==> r == s
    ensures h in s ==> |r| == |s| - 1 && multiset(r) == multiset(s) - multiset{h}
    ensures h in s ==> var i := IndexOf(s, h); r == s[..i] + s[i + 1..]
  {
    var i := IndexOf(s, h);
    if i == -1 then s
    else
      assert s == s[..i] + [h] + s[i + 1..];
      s[..i] + s[i + 1..]
  }

  /** Registering a new handler and removing it again restores the registry. */
  lemma AddThenRemove(s: seq<Handler>, h: Handler)
    requires h !in s
    ensures RemoveFirst(s + [h], h) == s
  {
    assert IndexOf(s + [h], h) == |s| by {
      assert (s + [h])[..|s|] == s;
    }
  }

  /** Only the first of several registrations of a handler is removed. */
  lemma RemoveOneOfDuplicates(h: Handler, g: Handler)
    requires g != h
    ensures RemoveFirst([h, g, h], h) == [g, h]
  {
  }

  /** The registry, kept in the class's static array. */
  class AsyncErrorHandler {
    var handlers: seq<Handler>

    constructor ()
      ensures handlers == []
    {
      handlers := [];
    }

    /** `addErrorHandler`: appended at the end. */
    method AddErrorHandler(h: Handler)
      modifies this
      ensures handlers == old(handlers) + [h]
    {
      handlers := handlers + [h];
    }

    /** `removeErrorHandler`: the first occurrence spliced out, nothing when absent. */
    method RemoveErrorHandler(h: Handler)
      modifies this
      ensures handlers == RemoveFirst(old(handlers), h)
    {
      var index := IndexOf(handlers, h);
      if index > -1 {
        handlers := handlers[..index] + handlers[index + 1..];
      }
    }

    /**
     * `handleAsyncError`: every handler is called, in order, whether or not an earlier
     * one threw; the error is reported as unhandled exactly when none is registered.
     */
    method HandleAsyncError(e: ErrorValue, throws: (Handler, ErrorValue) -> bool)
      returns (called: seq<Handler>, failed: seq<Handler>, unhandled: bool)
      ensures called == handlers
      ensures failed == Filter(handlers, h => throws(h, e))
      ensures unhandled <==> |handlers| == 0
    {
      called, failed := [], [];
      var i := 0;
      while i < |handlers|
        invariant 0 <= i <= |handlers|
        invariant called == handlers[..i]
        invariant failed == Filter(handlers[..i], h => throws(h, e))
      {
        var h := handlers[i];
        FilterAppend(handlers[..i], h, h' => throws(h', e));
        assert handlers[..i + 1] == handlers[..i] + [h];
        called := called + [h];
        if throws(h, e) {
          failed := failed + [h];
        }
        i := i + 1;
      }
      assert handlers[..|handlers|] == handlers;
      unhandled := |handlers| == 0;
    }
  }
}

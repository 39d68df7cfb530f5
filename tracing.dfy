/**
 The tracer the command controller writes to, reduced to the log of events it
 receives: a step is opened with a name and tags, errors are traced inside it,
 and disposing of the step closes it. ProperlyNested is the bracket discipline
 a log keeps when every opened step is closed. The tracer does not look at the
 errors it is given, so their type `E` is a parameter.
 */
module Tracing {
  import opened Wrappers

  datatype TraceEvent<E> =
    | StepOpened(name: string, tags: map<string, Option<string>>)
    | ErrorTraced(error: E)
    | StepClosed

  /** Opened steps minus closed steps. */
  function Depth<E>(log: seq<TraceEvent<E>>): int {
    if log == [] then 0
    else Depth(log[..|log| - 1]) + (match log[|log| - 1]
                                    case StepOpened(_, _) => 1
                                    case ErrorTraced(_) => 0
                                    case StepClosed => -1)
  }

  function ErrorCount<E>(log: seq<TraceEvent<E>>): nat {
    if log == [] then 0
    else ErrorCount(log[..|log| - 1]) + (if log[|log| - 1].ErrorTraced? then 1 else 0)
  }

  function OpenCount<E>(log: seq<TraceEvent<E>>): nat {
    if log == [] then 0
    else OpenCount(log[..|log| - 1]) + (if log[|log| - 1].StepOpened? then 1 else 0)
  }

  /** No step is closed before it is opened, and every opened step is closed. */
  ghost predicate ProperlyNested<E>(log: seq<TraceEvent<E>>) {
    (forall k :: 0 <= k <= |log| ==> Depth(log[..k]) >= 0) && Depth(log) == 0
  }

  lemma {:induction false} DepthConcat<E>(a: seq<TraceEvent<E>>, b: seq<TraceEvent<E>>)
    ensures Depth(a + b) == Depth(a) + Depth(b)
  {
    if b == [] {
      assert a + b == a;
    } else {
      var b' := b[..|b| - 1];
      assert (a + b)[..|a + b| - 1] == a + b';
      DepthConcat(a, b');
    }
  }

  lemma {:induction false} CountsConcat<E>(a: seq<TraceEvent<E>>, b: seq<TraceEvent<E>>)
    ensures ErrorCount(a + b) == ErrorCount(a) + ErrorCount(b)
    ensures OpenCount(a + b) == OpenCount(a) + OpenCount(b)
  {
    if b == [] {
      assert a + b == a;
    } else {
      var b' := b[..|b| - 1];
      assert (a + b)[..|a + b| - 1] == a + b';
      CountsConcat(a, b');
    }
  }

  /** Appending a properly nested log to a properly nested log keeps it so:
      the invariant of a tracer shared by consecutive requests. */
  lemma NestedConcat<E>(a: seq<TraceEvent<E>>, b: seq<TraceEvent<E>>)
    requires ProperlyNested(a) && ProperlyNested(b)
    ensures ProperlyNested(a + b)
  {
    forall k | 0 <= k <= |a + b|
      ensures Depth((a + b)[..k]) >= 0
    {
      if k <= |a| {
        assert (a + b)[..k] == a[..k];
      } else {
        assert (a + b)[..k] == a + b[..k - |a|];
        DepthConcat(a, b[..k - |a|]);
      }
    }
    assert (a + b)[..|a + b|] == a + b;
    DepthConcat(a, b);
  }

  /** The tracer handle: an append-only log of what it is told. */
  class Tracer<E> {
    var log: seq<TraceEvent<E>>

    constructor ()
      ensures log == []
    {
      log := [];
    }

    /** ITracer.Step: opens a named step with its tags. */
    method Step(name: string, tags: map<string, Option<string>>)
      modifies this
      ensures log == old(log) + [StepOpened(name, tags)]
    {
      log := log + [StepOpened(name, tags)];
    }

    /** ITracer.TraceError. */
    method TraceError(error: E)
      modifies this
      ensures log == old(log) + [ErrorTraced(error)]
    {
      log := log + [ErrorTraced(error)];
    }

    /** Disposing of the value Step returned: closes the innermost step. */
    method CloseStep()
      modifies this
      ensures log == old(log) + [StepClosed]
    {
      log := log + [StepClosed];
    }
  }
}

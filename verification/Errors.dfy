/** Go errors: sentinels, wrapping with %w, and errors.Join. */
module Errors {
  import opened Common

  datatype Error =
    | Canceled
    | DeadlineExceeded
    | Simple(text: string)
    | Wrapped(text: string, inner: Error)
    | Joined(errors: seq<Error>)

  // errors.Is(err, context.Canceled) || errors.Is(err, context.DeadlineExceeded)
  predicate IsCancellation(err: Error) {
    match err
    case Canceled => true
    case DeadlineExceeded => true
    case Simple(_) => false
    case Wrapped(_, inner) => IsCancellation(inner)
    case Joined(errors) => exists e :: e in errors && IsCancellation(e)
  }

  // The error found by unwrapping along a path; a join's members are numbered.
  function At(err: Error, path: seq<nat>): Option<Error> {
    if path == [] then Some(err)
    else
      match err
      case Wrapped(_, inner) => At(inner, path[1..])
      case Joined(errors) => if path[0] < |errors| then At(errors[path[0]], path[1..]) else None
      case _ => None
  }

  // Somewhere under any wraps and joins lies one of the two context errors.
  ghost predicate Holds(err: Error) {
    exists path :: At(err, path) == Some(Canceled) || At(err, path) == Some(DeadlineExceeded)
  }

  lemma {:induction false} HoldsBelow(err: Error, k: nat, inner: Error)
    requires At(err, [k]) == Some(inner) && Holds(inner)
    ensures Holds(err)
  {
    var path :| At(inner, path) == Some(Canceled) || At(inner, path) == Some(DeadlineExceeded);
    assert ([k] + path)[1..] == path && [k][1..] == [];
    assert At(err, [k] + path) == At(inner, path);
  }

  lemma {:induction false} ContextError(err: Error)
    requires err.Canceled? || err.DeadlineExceeded?
    ensures Holds(err)
  {
    assert At(err, []) == Some(err);
  }

  lemma {:induction false} FoundIsCancellation(err: Error, path: seq<nat>)
    requires At(err, path) == Some(Canceled) || At(err, path) == Some(DeadlineExceeded)
    ensures IsCancellation(err)
    decreases |path|
  {
    if path != [] {
      match err {
        case Wrapped(_, inner) => FoundIsCancellation(inner, path[1..]);
        case Joined(errors) =>
          FoundIsCancellation(errors[path[0]], path[1..]);
          assert errors[path[0]] in errors;
      }
    }
  }

  /** The test for a cancellation finds it under any wraps and joins, and nothing else. */
  lemma {:induction false} CancellationIsHeld(err: Error)
    ensures IsCancellation(err) <==> Holds(err)
  {
    if path :| At(err, path) == Some(Canceled) || At(err, path) == Some(DeadlineExceeded) {
      FoundIsCancellation(err, path);
    }
    if IsCancellation(err) {
      HeldIfCancellation(err);
    }
  }

  lemma {:induction false} HeldIfCancellation(err: Error)
    requires IsCancellation(err)
    ensures Holds(err)
  {
    match err
    case Wrapped(_, inner) =>
      HeldIfCancellation(inner);
      HoldsBelow(err, 0, inner);
    case Joined(errors) =>
      var e :| e in errors && IsCancellation(e);
      var k :| 0 <= k < |errors| && errors[k] == e;
      HeldIfCancellation(errors[k]);
      HoldsBelow(err, k, errors[k]);
    case _ => ContextError(err);
  }
}

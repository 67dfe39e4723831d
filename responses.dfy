/** The result envelope the repository emits (domain/Response.kt is not part of this model;
    its four variants are the ones the observers in the activities and fragments match on),
    and an optional value that stands for Kotlin's nullable types. */
module Responses {

  /** A Kotlin `T?`: either absent (`null`) or present. */
  datatype Option<+T> = None | Some(value: T) {

    /** Kotlin's elvis operator `x ?: default`. */
    function GetOr(default: T): T {
      match this
      case Some(v) => v
      case None => default
    }
  }

  /** One observation of an asynchronous operation: in flight, or one of three outcomes. */
  datatype Response<+T> = Loading | Success(data: T) | Empty | Error(message: Option<string>) {

    /** Success, Empty and Error end an operation; Loading does not. */
    predicate IsTerminal() {
      !Loading?
    }
  }

  /** The shape every repository flow has: Loading first, then at most one more value,
      and that value (when present) is terminal. */
  predicate WellFormedFlow<T>(flow: seq<Response<T>>) {
    && 1 <= |flow| <= 2
    && flow[0].Loading?
    && (forall i :: 1 <= i < |flow| ==> flow[i].IsTerminal())
  }

  /** In a well-formed flow a terminal value can only be the last one, and there is at most one. */
  lemma TerminalIsLast<T>(flow: seq<Response<T>>)
    requires WellFormedFlow(flow)
    ensures forall i :: 0 <= i < |flow| && flow[i].IsTerminal() ==> i == |flow| - 1
    ensures forall i, j :: 0 <= i < j < |flow| ==> !(flow[i].IsTerminal() && flow[j].IsTerminal())
  {
  }
}

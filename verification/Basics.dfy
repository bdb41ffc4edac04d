/** Small shared definitions. */
module Basics {

  datatype Option<+T> = None | Some(value: T)

  function Max(a: int, b: int): int { if a < b then b else a }

  function Min(a: int, b: int): int { if a < b then a else b }

  function Last<T>(s: seq<T>): T
    requires s != []
  {
    s[|s| - 1]
  }

  function Init<T>(s: seq<T>): seq<T>
    requires s != []
  {
    s[..|s| - 1]
  }

  ghost predicate NoDuplicates<T>(s: seq<T>) {
    forall i, j :: 0 <= i < j < |s| ==> s[i] != s[j]
  }

  /** A pass over a set: `done` lists, without repeats, the elements of `due` that are no longer `left`. */
  ghost predicate Visiting<T>(due: set<T>, left: set<T>, done: seq<T>) {
    && NoDuplicates(done)
    && (forall x <- done :: x in due && x !in left)
    && (forall x <- due :: x in left || x in done)
  }

  lemma VisitNext<T>(due: set<T>, left: set<T>, done: seq<T>, x: T)
    requires Visiting(due, left, done) && x in left
    ensures Visiting(due, left - {x}, if x in due then done + [x] else done)
  {
  }
}

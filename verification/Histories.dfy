/** Histories of actions, latest last, and counting in them. */
module Histories {
  datatype Log<A> = Empty | Then(before: Log<A>, last: A)

  /** `early` is an earlier moment of `late`. */
  ghost predicate Earlier<A>(early: Log<A>, late: Log<A>) {
    early == late || (late.Then? && Earlier(early, late.before))
  }

  ghost function One(b: bool): nat { if b then 1 else 0 }
}

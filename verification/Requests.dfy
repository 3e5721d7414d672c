/** Client messages as the scheduler, the workers and the graph thread see them. */
module Requests {

  datatype Option<+T> = None | Some(value: T)

  datatype Kind = Read | Write | Scan | Sync | Error | Update | Dummy | End

  /** `length` is the number the source parses out of `args`; only a Scan looks at it. */
  datatype Request = Request(kind: Kind, key: int, args: string, length: int)

  /** Number of consecutive keys, starting at `key`, that a request names. */
  function Range(r: Request): int {
    if r.kind.Scan? then r.length else 1
  }

  predicate Covers(r: Request, k: int) {
    r.key <= k < r.key + Range(r)
  }

  ghost predicate Conflict(q: Request, r: Request) {
    exists k :: Covers(q, k) && Covers(r, k)
  }

  /** A message a client may submit: the scheduler takes the first of the involved partitions, so
      there must be one; Sync and End are the scheduler's own markers. */
  predicate Submittable(r: Request) {
    Range(r) >= 1 && !r.kind.Sync? && !r.kind.End?
  }
}

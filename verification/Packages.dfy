/** Packages and the order in which the pipe sends them (client/pipe_store.go). */
module Packages {

  import opened Basics

  /** proto.PacketKind is a string type. */
  type Kind = string

  /** Go's zero `time.Time`; every other instant is some other integer. */
  const ZERO_TIME: int := 0

  /** The value of a package at one moment: every field the store reads or writes except `index`. */
  datatype Attrs = Attrs(
    kind: Kind,
    expiryTime: Option<int>,
    expiryCount: int,
    priority: int,
    retryLimit: int,
    retries: nat,
    time: int)

  datatype LogItem = LogItem(date: int, data: string)

  /** What a package carries. The store never looks at it. */
  datatype Data = Logs(items: seq<LogItem>) | Other(value: string)

  /** Lower priority values go first; among equals, the earlier time goes first. */
  predicate KeyLess(priority: int, time: int, priority': int, time': int) {
    priority < priority' || (priority == priority' && time < time')
  }

  predicate Less(a: Attrs, b: Attrs) {
    KeyLess(a.priority, a.time, b.priority, b.time)
  }

  predicate TimeExpired(a: Attrs, now: int) {
    a.expiryTime.Some? && now > a.expiryTime.value
  }

  predicate CountExpired(a: Attrs, laneLength: nat) {
    0 < a.expiryCount < laneLength
  }

  /** What looking at a package does to it: one more retry, and one step down every `retryLimit` retries. */
  function Retried(a: Attrs): Attrs {
    var n := a.retries + 1;
    if a.retryLimit > 0 && n % a.retryLimit == 0
    then a.(retries := n, priority := a.priority + 1)
    else a.(retries := n)
  }

  /** `Add` stamps a package that carries no time yet. */
  function Stamped(a: Attrs, stamp: int): Attrs {
    if a.time == ZERO_TIME then a.(time := stamp) else a
  }

  /** A package object. The store changes `priority`, `retries`, `index` and `time` in place. */
  class Package {
    const kind: Kind
    const expiryTime: Option<int>
    const expiryCount: int
    const retryLimit: int
    const data: Data
    var priority: int
    var retries: nat
    var time: int
    var index: int

    constructor (a: Attrs, data: Data, index: int)
      ensures Value() == a && this.data == data && this.index == index
    {
      this.data := data;
      kind, expiryTime, expiryCount, retryLimit := a.kind, a.expiryTime, a.expiryCount, a.retryLimit;
      priority, retries, time, this.index := a.priority, a.retries, a.time, index;
    }

    function Value(): Attrs
      reads this`priority, this`retries, this`time
    {
      Attrs(kind, expiryTime, expiryCount, priority, retryLimit, retries, time)
    }
  }
}

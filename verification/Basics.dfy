/** Values shared by every component: optional values, JSON, device replies and the
    two clocks (exact ticks and the whole-second timestamps that the tables store). */
module Basics {

  datatype Option<+T> = None | Some(value: T)

  datatype Json =
    | Null
    | Bool(b: bool)
    | Num(n: int)
    | Str(s: string)
    | Arr(items: seq<Json>)
    | Obj(members: map<string, Json>)

  /** A JSON object handed back to a caller, with the byte length of its compact encoding. */
  datatype Reply = Reply(members: map<string, Json>, bytes: nat)

  /** The object `{"code": code}`; its compact encoding is eleven bytes plus the code. */
  function CodeReply(code: string): Reply {
    Reply(map["code" := Str(code)], 11 + |code|)
  }

  /** The clock ticks in microseconds, the resolution of a Python datetime. */
  const TICKS: int := 1_000_000

  /** A stored timestamp keeps whole seconds only. ISO text of equal width orders like the
      number of seconds, so timestamps are compared as integers. */
  function Sec(tick: int): int {
    tick / TICKS
  }

  /** `x` occurs in the map under `k`. */
  predicate Maps<K, V(==)>(m: map<K, V>, k: K, v: V) {
    k in m && m[k] == v
  }
}

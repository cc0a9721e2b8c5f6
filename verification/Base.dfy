/** What several of the modules share. */
module Base {
  datatype Option<+T> = None | Some(value: T)

  /** One past the largest 64-bit unsigned value. */
  const WRAP: int := 0x1_0000_0000_0000_0000

  /** Left, right, up and down. */
  const NUM_DIRECTIONS: nat := 4

  /** A send queue that is longer than this counts as an error. */
  const MAX_SEND_BACKLOG: int := 64

  /** What a chain of list nodes has behind position `i`, position -1 being the list head. */
  function After<T>(chain: seq<T>, i: int, end: T): T
    requires -1 <= i < |chain|
  {
    if i + 1 < |chain| then chain[i + 1] else end
  }
}

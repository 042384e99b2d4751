/** The frame-id gate of MyDataFrameReady: a frame whose id is not newer than
    the last accepted one is dropped, except id 1, which the tracker sends on
    reset or resume and which is always accepted. */
module FrameGate {

  /** lastFrameID before the first frame. */
  const InitialFrameId: int := -1

  /** The id the tracker restarts from on reset or resume. */
  const ResetFrameId: int := 1

  /** Whether a frame with id curr gets past the gate when the last accepted
      id is last. */
  predicate Accepts(last: int, curr: int) {
    !(curr <= last && curr != ResetFrameId)
  }

  function Max(a: int, b: int): int {
    if a < b then b else a
  }

  /** lastFrameID after one frame: ordinary ids only ever raise it, and the
      reset id sets it back to 1 whatever it was. */
  function Gate(last: int, curr: int): (next: int)
    ensures curr == ResetFrameId ==> next == ResetFrameId
    ensures curr != ResetFrameId ==> next == Max(last, curr)
    ensures Accepts(last, curr) <==> (next == curr && (curr > last || curr == ResetFrameId))
  {
    if Accepts(last, curr) then curr else last
  }

  /** Any frame id the tracker can produce (ids are non-negative) passes the
      gate when no frame has been seen yet. */
  lemma FirstFrameAccepted(curr: int)
    requires curr >= 0
    ensures Accepts(InitialFrameId, curr) && Gate(InitialFrameId, curr) == curr
  {
  }

  /** The ids that get through, in arrival order, starting from lastFrameID. */
  function Accepted(last: int, ids: seq<int>): seq<int>
    decreases |ids|
  {
    if ids == [] then []
    else if Accepts(last, ids[0]) then [ids[0]] + Accepted(ids[0], ids[1..])
    else Accepted(last, ids[1..])
  }

  /** lastFrameID after a run of frames. */
  function Final(last: int, ids: seq<int>): int
    decreases |ids|
  {
    if ids == [] then last else Final(Gate(last, ids[0]), ids[1..])
  }

  /** lastFrameID is always the last id that got through. */
  lemma {:induction false} FinalIsLastAccepted(last: int, ids: seq<int>)
    ensures Accepted(last, ids) == [] ==> Final(last, ids) == last
    ensures Accepted(last, ids) != [] ==> Final(last, ids) == Accepted(last, ids)[|Accepted(last, ids)| - 1]
    decreases |ids|
  {
    if ids != [] {
      FinalIsLastAccepted(Gate(last, ids[0]), ids[1..]);
    }
  }

  /** Every id in acc either is newer than the one before it (the first one:
      newer than last) or is the reset id. */
  predicate IncreasingUntilReset(last: int, acc: seq<int>)
    decreases |acc|
  {
    acc == [] || ((acc[0] == ResetFrameId || acc[0] > last) && IncreasingUntilReset(acc[0], acc[1..]))
  }

  /** The ids that get through only move forward, except for a reset. */
  lemma {:induction false} AcceptedIncreaseUntilReset(last: int, ids: seq<int>)
    ensures IncreasingUntilReset(last, Accepted(last, ids))
    decreases |ids|
  {
    if ids != [] {
      if Accepts(last, ids[0]) {
        AcceptedIncreaseUntilReset(ids[0], ids[1..]);
        var acc := Accepted(last, ids);
        assert acc[1..] == Accepted(ids[0], ids[1..]);
      } else {
        AcceptedIncreaseUntilReset(last, ids[1..]);
      }
    }
  }

  /** The largest of last and all ids. */
  function MaxOf(last: int, ids: seq<int>): (m: int)
    ensures m >= last && forall i :: 0 <= i < |ids| ==> m >= ids[i]
    decreases |ids|
  {
    if ids == [] then last else MaxOf(Max(last, ids[0]), ids[1..])
  }

  /** Without a reset, lastFrameID ends at the newest id ever seen: a late,
      out-of-order frame never moves it back. */
  lemma {:induction false} NoResetKeepsMaximum(last: int, ids: seq<int>)
    requires forall i :: 0 <= i < |ids| ==> ids[i] != ResetFrameId
    ensures Final(last, ids) == MaxOf(last, ids)
    decreases |ids|
  {
    if ids != [] {
      NoResetKeepsMaximum(Gate(last, ids[0]), ids[1..]);
    }
  }

  /** A reset id always lands: right after it lastFrameID is 1. */
  lemma ResetAlwaysLands(last: int, ids: seq<int>)
    requires |ids| >= 1 && ids[|ids| - 1] == ResetFrameId
    ensures Final(last, ids) == ResetFrameId
  {
    FinalIsLastAccepted(last, ids);
    AcceptedEndsWithReset(last, ids);
  }

  lemma {:induction false} AcceptedEndsWithReset(last: int, ids: seq<int>)
    requires |ids| >= 1 && ids[|ids| - 1] == ResetFrameId
    ensures Accepted(last, ids) != [] && Accepted(last, ids)[|Accepted(last, ids)| - 1] == ResetFrameId
    decreases |ids|
  {
    if |ids| > 1 {
      AcceptedEndsWithReset(Gate(last, ids[0]), ids[1..]);
    }
  }
}

/**
 * The host's queue of pending resize timers, as `handleResize` in
 * src/LightPillar.jsx uses it: each session's handler keeps the id of its own
 * timer, clears it and arms a new 120 ms one on every resize event.
 */
module Timers {

  /** A pending resize timer: the session whose handler armed it, and that session's pixel ratio. */
  datatype ResizeTimer = ResizeTimer(session: nat, pixelRatio: real)

  /** No session has two timers pending. */
  predicate OnePerSession(ts: seq<ResizeTimer>) {
    forall i, j :: 0 <= i < j < |ts| ==> ts[i].session != ts[j].session
  }

  /** `clearTimeout(resizeTimeout)`: the pending timers without the given session's one. */
  function Cancel(ts: seq<ResizeTimer>, id: nat): (r: seq<ResizeTimer>)
    ensures |r| <= |ts|
    ensures forall t :: t in r <==> t in ts && t.session != id
  {
    if ts == [] then []
    else (if ts[0].session == id then [] else [ts[0]]) + Cancel(ts[1..], id)
  }

  /** Keeping only some timers keeps them one per session. */
  lemma {:induction false} CancelKeepsOnePerSession(ts: seq<ResizeTimer>, id: nat)
    ensures OnePerSession(ts) ==> OnePerSession(Cancel(ts, id))
  {
    if ts != [] && OnePerSession(ts) {
      assert OnePerSession(ts[1..]);
      CancelKeepsOnePerSession(ts[1..], id);
      var rest := Cancel(ts[1..], id);
      forall t | t in rest ensures t.session != ts[0].session {
        var j :| 0 <= j < |ts[1..]| && ts[1..][j] == t;
        assert ts[j + 1] == t;
      }
    }
  }

  /** `clearTimeout(resizeTimeout); resizeTimeout = setTimeout(…, 120)`. */
  function Arm(ts: seq<ResizeTimer>, id: nat, pixelRatio: real): (r: seq<ResizeTimer>)
    ensures |r| >= 1 && r[|r| - 1] == ResizeTimer(id, pixelRatio)
    ensures forall i :: 0 <= i < |r| - 1 ==> r[i].session != id
    ensures forall t :: t in r <==> (t in ts && t.session != id) || t == ResizeTimer(id, pixelRatio)
    ensures OnePerSession(ts) ==> OnePerSession(r)
  {
    var kept := Cancel(ts, id);
    CancelKeepsOnePerSession(ts, id);
    assert forall i :: 0 <= i < |kept| ==> kept[i] in kept;
    kept + [ResizeTimer(id, pixelRatio)]
  }

  /** A burst of resize events leaves the same single timer as the last event of it alone. */
  lemma {:induction false} ArmTwiceIsArmOnce(ts: seq<ResizeTimer>, id: nat, p1: real, p2: real)
    ensures Arm(Arm(ts, id, p1), id, p2) == Arm(ts, id, p2)
  {
    CancelAgain(Cancel(ts, id), id);
    CancelDrops(Cancel(ts, id), id, p1);
  }

  lemma {:induction false} CancelAgain(ts: seq<ResizeTimer>, id: nat)
    requires forall t :: t in ts ==> t.session != id
    ensures Cancel(ts, id) == ts
  {
    if ts != [] {
      assert ts[0] in ts;
      assert forall t :: t in ts[1..] ==> t in ts;
      CancelAgain(ts[1..], id);
      assert [ts[0]] + ts[1..] == ts;
    }
  }

  lemma {:induction false} CancelDrops(ts: seq<ResizeTimer>, id: nat, p: real)
    ensures Cancel(ts + [ResizeTimer(id, p)], id) == Cancel(ts, id)
  {
    if ts == [] {
      assert Cancel([ResizeTimer(id, p)], id) == [] + Cancel([], id);
    } else {
      assert (ts + [ResizeTimer(id, p)])[1..] == ts[1..] + [ResizeTimer(id, p)];
      CancelDrops(ts[1..], id, p);
    }
  }

  /** The host runs and forgets the timer at position `k`. */
  function Fire(ts: seq<ResizeTimer>, k: nat): (r: seq<ResizeTimer>)
    requires k < |ts|
    ensures |r| == |ts| - 1
    ensures forall t :: t in r ==> t in ts
    ensures OnePerSession(ts) ==> OnePerSession(r) && ts[k] !in r
  {
    var r := ts[..k] + ts[k + 1..];
    assert forall i :: 0 <= i < |r| ==> r[i] == ts[if i < k then i else i + 1];
    r
  }
}

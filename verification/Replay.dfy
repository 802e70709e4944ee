/** The replay window as a value, and the ideal filter it must agree with. */
module Replay {
  import opened Types

  /** The value of a slot no sequence has been stored in. */
  const EMPTY: uint64 := 0xFFFF_FFFF_FFFF_FFFF

  /** `received` is the modular array; its length is the buffer size. */
  datatype WindowState = Window(mostRecent: uint64, received: seq<uint64>)

  type Window = w: WindowState | 0 < |w.received| <= TWO63 witness Window(0, [EMPTY])

  function Fresh(size: nat): (w: Window)
    requires 0 < size <= TWO63
    ensures |w.received| == size
  {
    Window(0, seq(size, _ => EMPTY))
  }

  /** netcode_replay_protection_packet_already_received: the verdict and the updated window. */
  function AlreadyReceived(w: Window, sequence: uint64): (r: (bool, Window))
    ensures |r.1.received| == |w.received|
  {
    var size := |w.received|;
    if sequence >= TWO63 then (false, w)
    else if (sequence + size) % TWO64 <= w.mostRecent then (true, w)
    else
      var moved := if sequence > w.mostRecent then w.(mostRecent := sequence) else w;
      var index := sequence % size;
      if w.received[index] == EMPTY then (false, moved.(received := w.received[index := sequence]))
      else if w.received[index] >= sequence then (true, moved)
      else (false, moved.(received := w.received[index := sequence]))
  }

  /** The window after a history of calls. */
  function Feed(size: nat, history: seq<uint64>): (w: Window)
    requires 0 < size <= TWO63
    ensures |w.received| == size
  {
    if history == [] then Fresh(size)
    else
      var last := |history| - 1;
      AlreadyReceived(Feed(size, history[..last]), history[last]).1
  }

  // ----- the ideal filter: it remembers everything -----

  /** `sequence` is at least `size` behind some sequence seen before. */
  ghost predicate TooOld(size: nat, history: seq<uint64>, sequence: uint64) {
    exists k :: 0 <= k < |history| && history[k] < TWO63 && sequence + size <= history[k]
  }

  ghost predicate Refused(size: nat, history: seq<uint64>, sequence: uint64) {
    sequence < TWO63 && (TooOld(size, history, sequence) || sequence in Accepted(size, history))
  }

  /** The sequences below 2^63 that the ideal filter has let through. */
  ghost function Accepted(size: nat, history: seq<uint64>): (a: set<uint64>)
    ensures forall s :: s in a ==> s < TWO63
    decreases |history|
  {
    if history == [] then {}
    else
      var last := |history| - 1;
      var before := Accepted(size, history[..last]);
      var s := history[last];
      if s >= TWO63 || TooOld(size, history[..last], s) then before else before + {s}
  }

  /** What ties the array to the history: each slot holds the greatest accepted sequence of its
      residue class, and mostRecent is the greatest sequence seen. */
  ghost predicate Agrees(w: Window, history: seq<uint64>) {
    var size := |w.received|;
    && w.mostRecent < TWO63
    && (forall k :: 0 <= k < |history| && history[k] < TWO63 ==> history[k] <= w.mostRecent)
    && (w.mostRecent != 0 ==> w.mostRecent in history)
    && (forall i :: 0 <= i < size && w.received[i] != EMPTY ==>
          w.received[i] % size == i && w.received[i] in Accepted(size, history) && w.received[i] <= w.mostRecent)
    && (forall s :: s in Accepted(size, history) ==>
          w.received[s % size] != EMPTY && s <= w.received[s % size])
  }

  lemma ResidueGap(size: nat, a: nat, b: nat)
    requires size > 0 && a % size == b % size && a < b
    ensures a + size <= b
  {
    assert a == size * (a / size) + a % size;
    assert b == size * (b / size) + b % size;
    if b / size <= a / size {
      MulMonotone(size, b / size, a / size);
      assert false;
    }
    MulMonotone(size, a / size + 1, b / size);
  }

  lemma {:induction false} VerdictAgrees(w: Window, history: seq<uint64>, s: uint64)
    requires Agrees(w, history)
    ensures AlreadyReceived(w, s).0 <==> Refused(|w.received|, history, s)
  {
    var size := |w.received|;
    if s < TWO63 {
      if s + size <= w.mostRecent {
        assert w.mostRecent in history;
        var k :| 0 <= k < |history| && history[k] == w.mostRecent;
        assert TooOld(size, history, s);
      } else {
        assert !TooOld(size, history, s);
        var v := w.received[s % size];
        if v != EMPTY && v > s {
          ResidueGap(size, s, v);
          assert false;
        }
      }
    }
  }

  lemma {:induction false} StepAgrees(w: Window, history: seq<uint64>, s: uint64)
    requires Agrees(w, history)
    ensures Agrees(AlreadyReceived(w, s).1, history + [s])
  {
    var size := |w.received|;
    var w' := AlreadyReceived(w, s).1;
    var h' := history + [s];
    VerdictAgrees(w, history, s);
    assert h'[..|history|] == history;
    if s >= TWO63 || TooOld(size, history, s) {
      assert Accepted(size, h') == Accepted(size, history);
      assert w' == w;
    } else {
      assert Accepted(size, h') == Accepted(size, history) + {s};
    }
  }

  lemma {:induction false} FeedAgrees(size: nat, history: seq<uint64>)
    requires 0 < size <= TWO63
    ensures Agrees(Feed(size, history), history)
  {
    if history != [] {
      var last := |history| - 1;
      FeedAgrees(size, history[..last]);
      StepAgrees(Feed(size, history[..last]), history[..last], history[last]);
      assert history == history[..last] + [history[last]];
    }
  }

  /** The window is exact: after any history, a sequence below 2^63 is refused if and only if
      it is at least `size` behind the greatest sequence seen, or was accepted before. */
  lemma WindowIsExact(size: nat, history: seq<uint64>, s: uint64)
    requires 0 < size <= TWO63
    ensures AlreadyReceived(Feed(size, history), s).0
            <==> s < TWO63 && (TooOld(size, history, s) || s in Accepted(size, history))
  {
    FeedAgrees(size, history);
    VerdictAgrees(Feed(size, history), history, s);
  }

  /** The sequences the window let through, in order. */
  function Passed(size: nat, history: seq<uint64>): seq<uint64>
    requires 0 < size <= TWO63
  {
    if history == [] then []
    else
      var last := |history| - 1;
      var before := Passed(size, history[..last]);
      if AlreadyReceived(Feed(size, history[..last]), history[last]).0 then before
      else before + [history[last]]
  }

  lemma {:induction false} PassedIsAccepted(size: nat, history: seq<uint64>, s: uint64)
    requires 0 < size <= TWO63 && s < TWO63
    ensures s in Passed(size, history) <==> s in Accepted(size, history)
  {
    if history != [] {
      var last := |history| - 1;
      PassedIsAccepted(size, history[..last], s);
      WindowIsExact(size, history[..last], history[last]);
    }
  }

  /** No sequence below 2^63 passes twice. */
  lemma {:induction false} PassesOnce(size: nat, history: seq<uint64>, i: nat, j: nat)
    requires 0 < size <= TWO63
    requires i < j < |Passed(size, history)| && Passed(size, history)[i] < TWO63
    ensures Passed(size, history)[i] != Passed(size, history)[j]
  {
    var last := |history| - 1;
    var before := Passed(size, history[..last]);
    if j < |before| {
      PassesOnce(size, history[..last], i, j);
    } else {
      PassedIsAccepted(size, history[..last], before[i]);
      WindowIsExact(size, history[..last], history[last]);
    }
  }

  // ----- what a refusal means for the future -----

  /** Once refused, a sequence is refused by every later window. */
  lemma RefusalLasts(w: Window, s: uint64, q: uint64)
    requires AlreadyReceived(w, s).0
    ensures AlreadyReceived(AlreadyReceived(w, q).1, s).0
  {
  }

  /** A sequence that passes is refused from then on. */
  lemma PassingIsRemembered(w: Window, s: uint64)
    requires s < TWO63
    ensures AlreadyReceived(AlreadyReceived(w, s).1, s).0
  {
  }
}

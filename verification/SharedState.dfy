/** The per-core counting semaphores of src/shared_state.rs. */
module SharedStates {
  /** Counters are machine words: `AtomicUsize` on a 64-bit target. */
  const USIZE_RANGE: nat := 0x1_0000_0000_0000_0000

  type usize = n: nat | n < USIZE_RANGE

  /** The value `fetch_add(1)` leaves behind. */
  function WrappingInc(n: usize): usize {
    (n + 1) % USIZE_RANGE
  }

  /** The value `fetch_sub(1)` leaves behind. */
  function WrappingDec(n: usize): usize {
    (n + USIZE_RANGE - 1) % USIZE_RANGE
  }

  /** The value a counter has after a decrement and the repair that may follow it. */
  function ClampedDec(n: usize): usize {
    if n == 0 then 0 else n - 1
  }

  predicate IsLast(n: usize) {
    n <= 1
  }

  /** Counting up and down undo each other on the whole range of the word; only counting down from
      zero differs from what the counters keep. */
  lemma CountsWrap(n: usize)
    ensures WrappingInc(n) == if n == 0xFFFF_FFFF_FFFF_FFFF then 0 else n + 1
    ensures WrappingDec(WrappingInc(n)) == n && WrappingInc(WrappingDec(n)) == n
    ensures ClampedDec(n) == WrappingDec(n) <==> n > 0
    ensures IsLast(n) <==> ClampedDec(n) == 0
  {
  }

  /** The two counters of one core. */
  datatype Counters = Counters(clear: usize, catches: usize)

  const ZERO: Counters := Counters(0, 0)

  class SharedState {
    var clearVectorCatchAndBreakpoints: usize
    var vectorCatchEnabled: usize

    function Value(): Counters
      reads this
    {
      Counters(clearVectorCatchAndBreakpoints, vectorCatchEnabled)
    }

    constructor ()
      ensures Value() == ZERO
    {
      clearVectorCatchAndBreakpoints := 0;
      vectorCatchEnabled := 0;
    }

    method Reset()
      modifies this
      ensures Value() == ZERO
    {
      clearVectorCatchAndBreakpoints := 0;
      vectorCatchEnabled := 0;
    }

    /** One more holder; the answer tells whether there was none before. */
    method IncClear() returns (first: bool)
      modifies this
      ensures first == (old(Value()).clear == 0)
      ensures Value() == old(Value()).(clear := WrappingInc(old(Value()).clear))
    {
      var prev := clearVectorCatchAndBreakpoints;
      clearVectorCatchAndBreakpoints := WrappingInc(prev);
      first := prev == 0;
    }

    /** One holder less, if there was any; the answer tells whether none is left. */
    method DecClear() returns (last: bool)
      modifies this
      ensures last == IsLast(old(Value()).clear)
      ensures Value() == old(Value()).(clear := ClampedDec(old(Value()).clear))
    {
      var prev := clearVectorCatchAndBreakpoints;
      clearVectorCatchAndBreakpoints := WrappingDec(prev);
      if prev == 0 {
        clearVectorCatchAndBreakpoints := 0;
      }
      last := prev == 1 || prev == 0;
    }

    /** One more holder; the answer tells whether there was none before. */
    method IncCatch() returns (first: bool)
      modifies this
      ensures first == (old(Value()).catches == 0)
      ensures Value() == old(Value()).(catches := WrappingInc(old(Value()).catches))
    {
      var prev := vectorCatchEnabled;
      vectorCatchEnabled := WrappingInc(prev);
      first := prev == 0;
    }

    /** One holder less, if there was any; the answer tells whether none is left. */
    method DecCatch() returns (last: bool)
      modifies this
      ensures last == IsLast(old(Value()).catches)
      ensures Value() == old(Value()).(catches := ClampedDec(old(Value()).catches))
    {
      var prev := vectorCatchEnabled;
      vectorCatchEnabled := WrappingDec(prev);
      if prev == 0 {
        vectorCatchEnabled := 0;
      }
      last := prev == 1 || prev == 0;
    }
  }
}

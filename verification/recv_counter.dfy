/**
 * The receiving sample's `SendMessageHelper`: a one-shot timer that, at each tick, raises
 * `OnSendMessage` with the decimal text of a counter running from `start` to `stop`
 * inclusive.
 *
 * The counter is a 32-bit `int`, and the source increments it before comparing it with the
 * stop value. At the stop value `int.MaxValue` the increment wraps to `int.MinValue`, which
 * is not above the stop value, so the counter never stops. `SendFunc` models the code as
 * written; `SendFuncChecked` compares before incrementing and keeps the promised range.
 */
module RecvCounter {
  import opened Text

  /** A due time: `Start` arms the timer in milliseconds, each later tick in seconds. */
  datatype Due = Milliseconds(ms: int) | Seconds(s: int)

  /** `_sendTimer`: null, or armed. */
  datatype CounterTimer = NoTimer | Armed(due: Due)

  /** The counter after one tick, as written: the 32-bit increment, and whether the timer goes on. */
  function TickAsWritten(current: Int32, stop: Int32): (r: (Int32, bool))
    ensures current < MaxInt32 ==> r.0 == current + 1
    ensures current == MaxInt32 ==> r.0 == MinInt32
    ensures r.1 <==> current < stop || current == MaxInt32
  {
    var next := Wrap32(current + 1);
    (next, !(next > stop))
  }

  /** The counter after one tick, compared before the increment: it goes on exactly while below `stop`. */
  function TickChecked(current: Int32, stop: Int32): (r: (Int32, bool))
    ensures r.1 <==> current < stop
    ensures r.1 ==> r.0 == current + 1
  {
    if current >= stop then (current, false) else (current + 1, true)
  }

  class SendMessageHelper {
    var timer: CounterTimer
    var interval: Int32
    var stop: Int32
    var current: Int32
    /** The texts `OnSendMessage` was raised with. */
    var sent: seq<string>

    constructor()
      ensures timer == NoTimer && interval == 0 && stop == 0 && current == 0 && sent == []
    {
      timer := NoTimer;
      interval := 0;
      stop := 0;
      current := 0;
      sent := [];
    }

    /**
     * `Start(interval, start, stop)`: an empty range changes nothing. Otherwise count from
     * `start` and arm the timer for `interval` milliseconds.
     */
    method Start(interval: Int32, start: Int32, stop: Int32)
      modifies this
      ensures sent == old(sent)
      ensures start > stop ==>
        timer == old(timer) && this.interval == old(this.interval) && this.stop == old(this.stop)
        && current == old(current)
      ensures start <= stop ==>
        this.interval == interval && current == start && this.stop == stop && timer == Armed(Milliseconds(interval))
    {
      if start > stop {
        return;
      }
      this.interval := interval;
      current := start;
      this.stop := stop;
      timer := Armed(Milliseconds(interval));
    }

    /** `Stop`: drop the timer; nothing else changes. */
    method Stop()
      modifies this
      ensures timer == NoTimer
      ensures interval == old(interval) && stop == old(stop) && current == old(current) && sent == old(sent)
    {
      timer := NoTimer;
    }

    /**
     * `SendFunc`, as written: send the current value, increment it with 32-bit wrap-around,
     * and stop once it is above the stop value; otherwise re-arm the timer in seconds.
     */
    method SendFunc()
      requires timer.Armed?
      modifies this
      ensures sent == old(sent) + [IntToDecimal(old(current))]
      ensures (current, timer.Armed?) == TickAsWritten(old(current), stop)
      ensures timer.Armed? ==> timer == Armed(Seconds(interval))
      ensures interval == old(interval) && stop == old(stop)
    {
      sent := sent + [IntToDecimal(current)];
      current := Wrap32(current + 1);
      if current > stop {
        Stop();
        return;
      }
      timer := Armed(Seconds(interval));
    }

    /** `SendFunc` with the comparison made before the increment, so it never overflows. */
    method SendFuncChecked()
      requires timer.Armed?
      modifies this
      ensures sent == old(sent) + [IntToDecimal(old(current))]
      ensures (current, timer.Armed?) == TickChecked(old(current), stop)
      ensures timer.Armed? ==> timer == Armed(Seconds(interval))
      ensures interval == old(interval) && stop == old(stop)
    {
      sent := sent + [IntToDecimal(current)];
      if current >= stop {
        Stop();
        return;
      }
      current := current + 1;
      timer := Armed(Seconds(interval));
    }
  }

  // ---------------------------------------------------------------- properties

  /** The decimal texts of `lo`, `lo + 1`, …, `hi`. */
  function Range(lo: int, hi: int): (r: seq<string>)
    ensures |r| == if lo <= hi then hi - lo + 1 else 0
    ensures forall i :: 0 <= i < |r| ==> r[i] == IntToDecimal(lo + i)
    decreases hi - lo
  {
    if lo > hi then [] else [IntToDecimal(lo)] + Range(lo + 1, hi)
  }

  /** The range grows at its top end one value at a time. */
  lemma RangeSnoc(lo: int, hi: int)
    requires lo <= hi + 1
    ensures Range(lo, hi + 1) == Range(lo, hi) + [IntToDecimal(hi + 1)]
  {
    var a, b := Range(lo, hi + 1), Range(lo, hi) + [IntToDecimal(hi + 1)];
    assert |a| == |b|;
    forall i | 0 <= i < |a|
      ensures a[i] == b[i]
    {
      if i < |a| - 1 {
        assert b[i] == Range(lo, hi)[i];
      }
    }
  }

  /**
   * With the checked tick, running the timer out sends exactly the values `start` to `stop`,
   * in ascending order, and nothing for an empty range.
   */
  method SendRange(interval: Int32, start: Int32, stop: Int32) returns (sent: seq<string>)
    ensures sent == Range(start, stop)
  {
    var h := new SendMessageHelper();
    h.Start(interval, start, stop);
    while h.timer.Armed?
      invariant start <= stop ==> h.stop == stop
      invariant start <= stop ==> start <= h.current <= stop
      invariant h.timer.Armed? ==> start <= stop
      invariant start <= stop && h.timer.Armed? ==> h.sent == Range(start, h.current - 1)
      invariant start <= stop && !h.timer.Armed? ==> h.sent == Range(start, stop)
      invariant start > stop ==> h.sent == [] && h.timer == NoTimer
      decreases if h.timer.Armed? then stop - h.current + 1 else 0
    {
      RangeSnoc(start, h.current - 1);
      h.SendFuncChecked();
    }
    sent := h.sent;
  }

  /**
   * As written, a stop value below `int.MaxValue` never lets the increment wrap, so running
   * the timer out sends exactly the values `start` to `stop`, in ascending order.
   */
  method SendRangeAsWritten(interval: Int32, start: Int32, stop: Int32) returns (sent: seq<string>)
    requires stop < MaxInt32
    ensures sent == Range(start, stop)
  {
    var h := new SendMessageHelper();
    h.Start(interval, start, stop);
    while h.timer.Armed?
      invariant start <= stop ==> h.stop == stop
      invariant start <= stop ==> start <= h.current <= stop + 1
      invariant h.timer.Armed? ==> start <= stop && h.current <= stop
      invariant start <= stop && h.timer.Armed? ==> h.sent == Range(start, h.current - 1)
      invariant start <= stop && !h.timer.Armed? ==> h.sent == Range(start, stop)
      invariant start > stop ==> h.sent == [] && h.timer == NoTimer
      decreases if h.timer.Armed? then stop - h.current + 1 else 0
    {
      RangeSnoc(start, h.current - 1);
      h.SendFunc();
    }
    sent := h.sent;
  }

  /** Below `int.MaxValue` the tick as written and the checked tick agree. */
  lemma TicksAgreeBelowMax(current: Int32, stop: Int32)
    requires current <= stop < MaxInt32
    ensures TickAsWritten(current, stop).1 == TickChecked(current, stop).1
    ensures TickChecked(current, stop).1 ==> TickAsWritten(current, stop).0 == TickChecked(current, stop).0
  {
  }

  /** As written, the tick at the stop value `int.MaxValue` wraps to `int.MinValue` and goes on. */
  lemma TickWrapsAtMax(stop: Int32)
    requires stop == MaxInt32
    ensures TickAsWritten(stop, stop) == (MinInt32, true)
  {
    assert Wrap32(stop + 1) == MinInt32;
  }

  /**
   * As written, a counter that reaches the stop value `int.MaxValue` sends it, wraps to
   * `int.MinValue` and keeps its timer, so the sending never stops.
   */
  method WrapAtMaxValue(interval: Int32) returns (next: Int32, running: bool, sent: seq<string>)
    ensures next == MinInt32 && running
    ensures sent == [IntToDecimal(MaxInt32)]
  {
    var h := new SendMessageHelper();
    h.Start(interval, MaxInt32, MaxInt32);
    TickWrapsAtMax(MaxInt32);
    h.SendFunc();
    next, running, sent := h.current, h.timer.Armed?, h.sent;
  }
}

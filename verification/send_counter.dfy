/**
 * The sending sample's `SendMessageHelper`: a one-shot timer that, at each tick, raises
 * `OnSendMessage` with an operation envelope carrying the next value, counting up from 0.
 *
 * The timer is absent, armed for some milliseconds, or present but paused. Each call of
 * `SendFunc` is one tick of an armed timer. `sent` is the sequence of texts
 * `OnSendMessage` was raised with, oldest first.
 */
module SendCounter {
  import opened Text
  import opened Json
  import opened Constants
  import opened Envelope

  /** The innermost parameter object `{Value: value}`. */
  function ValueParas(value: Int32): string {
    Print([(ParaValue, JInt(value))])
  }

  /** The command object `{Command: SendValue, Paras: {Value: value}}`, as text. */
  function SendValueCommand(value: Int32): string {
    Print([(Command, JStr(CmdSendValue)), (Paras, JStr(ValueParas(value)))])
  }

  /** `GetSendMessage(value)`: the operation envelope that asks the receiver to take `value`. */
  function GetSendMessage(value: Int32): string {
    TopicMessage(TopicOperation, SendValueCommand(value))
  }

  /** `_sendTimer`: null, due after some milliseconds, or paused with no due time. */
  datatype SendTimer = NoTimer | Armed(dueMilliseconds: int) | Paused

  class SendMessageHelper {
    var timer: SendTimer
    var interval: Int32
    var stop: Int32
    var current: Int32
    /** The texts `OnSendMessage` was raised with. */
    var sent: seq<string>

    /**
     * While the timer is there, the next value is not negative and is below the stop value,
     * except for the single value 0 when the stop value is 0. So the increment never
     * overflows.
     */
    predicate Valid()
      reads this
    {
      timer != NoTimer ==> 0 <= current && (current < stop || current == 0)
    }

    constructor()
      ensures Valid()
      ensures timer == NoTimer && interval == 0 && stop == 0 && current == 0 && sent == []
    {
      timer := NoTimer;
      interval := 0;
      stop := 0;
      current := 0;
      sent := [];
    }

    /**
     * `Start(interval, sendValue)`: a negative value changes nothing. Otherwise count from 0
     * towards `sendValue` and arm the timer for `interval` milliseconds.
     */
    method Start(interval: Int32, sendValue: Int32)
      requires Valid()
      modifies this
      ensures Valid() && sent == old(sent)
      ensures sendValue < 0 ==>
        timer == old(timer) && this.interval == old(this.interval) && stop == old(stop) && current == old(current)
      ensures sendValue >= 0 ==>
        this.interval == interval && current == 0 && stop == sendValue && timer == Armed(interval)
    {
      if sendValue < 0 {
        return;
      }
      this.interval := interval;
      current := 0;
      stop := sendValue;
      timer := Armed(interval);
    }

    /** `Stop`: drop the timer; nothing else changes. */
    method Stop()
      modifies this
      ensures timer == NoTimer
      ensures interval == old(interval) && stop == old(stop) && current == old(current) && sent == old(sent)
    {
      timer := NoTimer;
    }

    /**
     * `SendFunc`: pause the timer, send the envelope of the current value, count up, and
     * stop once the count reaches the stop value; otherwise re-arm the timer.
     */
    method SendFunc()
      requires Valid() && timer.Armed?
      modifies this
      ensures Valid()
      ensures sent == old(sent) + [GetSendMessage(old(current))]
      ensures current == old(current) + 1
      ensures timer == if current >= stop then NoTimer else Armed(interval)
      ensures interval == old(interval) && stop == old(stop)
    {
      if timer != NoTimer {
        timer := Paused;
      }
      sent := sent + [GetSendMessage(current)];
      current := current + 1;
      if current >= stop {
        Stop();
        return;
      }
      if timer != NoTimer {
        timer := Armed(interval);
      }
    }
  }

  // ---------------------------------------------------------------- properties

  /** The envelopes of the values 0, 1, …, n - 1, in this order. */
  function Envelopes(n: nat): (r: seq<string>)
    requires n <= MaxInt32 + 1
    ensures |r| == n
  {
    if n == 0 then [] else Envelopes(n - 1) + [GetSendMessage(n - 1)]
  }

  /** One more value sends one more envelope, at the end. */
  lemma EnvelopesSnoc(n: nat)
    requires n <= MaxInt32
    ensures Envelopes(n + 1) == Envelopes(n) + [GetSendMessage(n)]
  {
  }

  /** Entry `i` of `Envelopes(n)` is the envelope of the value `i`. */
  lemma {:induction false} EnvelopesAt(n: nat, i: nat)
    requires n <= MaxInt32 + 1 && i < n
    ensures Envelopes(n)[i] == GetSendMessage(i)
  {
    if i < n - 1 {
      EnvelopesAt(n - 1, i);
    }
  }

  /**
   * Starting with `sendValue` and letting the timer run out: a negative value sends
   * nothing; otherwise the values 0, 1, 2, … are sent in order, `sendValue` of them, except
   * that 0 still sends the single value 0.
   */
  method SendAll(interval: Int32, sendValue: Int32) returns (sent: seq<string>)
    ensures sendValue < 0 ==> sent == []
    ensures sendValue >= 0 ==> sent == Envelopes(if sendValue == 0 then 1 else sendValue)
  {
    var h := new SendMessageHelper();
    h.Start(interval, sendValue);
    while h.timer.Armed?
      invariant h.Valid()
      invariant sendValue < 0 ==> h.timer == NoTimer && h.sent == []
      invariant sendValue >= 0 ==> h.stop == sendValue && h.interval == interval
      invariant h.timer.Armed? ==> h.timer == Armed(interval)
      invariant 0 <= h.current <= MaxInt32
      invariant h.sent == Envelopes(h.current)
      invariant sendValue >= 0 && !h.timer.Armed? ==> h.current == if sendValue == 0 then 1 else sendValue
      decreases if h.timer.Armed? then h.stop - h.current + 1 else 0
    {
      ghost var n := h.current;
      h.SendFunc();
      EnvelopesSnoc(n);
    }
    sent := h.sent;
  }
}

/**
 * The logic of the sending sample's form: the ping tracker (`buttonPing_Click`,
 * `OnPangMsgSafePost`, `DisplayPingInfo` over `PingInfo` records) and the two input
 * validators. Labels, message boxes and the log list box are left out; a log line is
 * recorded as text and a displayed ping result as a `PingReport`.
 *
 * Times are integer milliseconds (`DateTime.Now` is a parameter). A span's `Milliseconds`
 * property is only the millisecond component of the span, between -999 and 999, while the
 * spans are sorted by their full length. So the report as written can show a minimum above
 * its maximum. `ReportAsWritten` models the report as written; `Report` uses the full spans.
 */
module SendForm {
  import opened Wrappers
  import opened Text

  /** `PingInfo`: the key, the send and receive times, and whether the pong came back. */
  datatype PingInfo = PingInfo(key: string, sendTime: int, recvTime: int, received: bool) {
    /** `Span`: the receive time minus the send time. */
    function Span(): int {
      recvTime - sendTime
    }
  }

  /** The three numbers `DisplayPingInfo` shows. */
  datatype PingReport = PingReport(min: int, max: int, avg: int)

  /**
   * C#'s integer division, which truncates toward zero: the quotient times `n` is the
   * multiple of `n` nearest `a` on the side of zero.
   */
  function TruncDiv(a: int, n: int): (q: int)
    requires n > 0
    ensures a >= 0 ==> 0 <= q * n <= a < q * n + n
    ensures a < 0 ==> q * n - n < a <= q * n <= 0
  {
    if a >= 0 then
      QuotientBounds(a, n);
      a / n
    else
      var p := (-a) / n;
      QuotientBounds(-a, n);
      assert (-p) * n == -(p * n);
      -p
  }

  /** The Euclidean quotient of a natural number: the greatest multiple of `n` not above it. */
  lemma QuotientBounds(a: int, n: int)
    requires a >= 0 && n > 0
    ensures 0 <= (a / n) * n <= a < (a / n) * n + n
  {
    var q := a / n;
    assert a == q * n + a % n;
    MulMonotone(0, q, n);
  }


  /** `TimeSpan.Milliseconds`: the millisecond component of a span, with the span's sign. */
  function MillisecondsPart(span: int): (r: int)
    ensures -999 <= r <= 999
    ensures span >= 0 ==> r == span % 1000
    ensures 0 <= span < 1000 ==> r == span
  {
    if span >= 0 then span % 1000 else -((-span) % 1000)
  }

  predicate Sorted(s: seq<int>) {
    forall i, j :: 0 <= i < j < |s| ==> s[i] <= s[j]
  }

  /** Insert `x` into the sorted `s`, keeping it sorted. */
  function Insert(x: int, s: seq<int>): (r: seq<int>)
    requires Sorted(s)
    ensures Sorted(r) && multiset(r) == multiset(s) + multiset{x}
    ensures forall i :: 0 <= i < |r| ==> r[i] == x || r[i] in s
  {
    if s == [] then [x]
    else if x <= s[0] then [x] + s
    else
      var t := Insert(x, s[1..]);
      InsertBehind(x, s, t);
      [s[0]] + t
  }

  /** Putting the head of `s` back in front of `x` inserted into the rest of `s`. */
  lemma InsertBehind(x: int, s: seq<int>, t: seq<int>)
    requires Sorted(s) && s != [] && s[0] < x
    requires Sorted(t) && multiset(t) == multiset(s[1..]) + multiset{x}
    requires forall i :: 0 <= i < |t| ==> t[i] == x || t[i] in s[1..]
    ensures Sorted([s[0]] + t) && multiset([s[0]] + t) == multiset(s) + multiset{x}
    ensures forall i :: 0 <= i < |[s[0]] + t| ==> ([s[0]] + t)[i] == x || ([s[0]] + t)[i] in s
  {
    assert s == [s[0]] + s[1..];
    forall i | 0 <= i < |t|
      ensures s[0] <= t[i]
    {
      if t[i] != x {
        var j :| 1 <= j < |s| && s[j] == t[i];
      }
    }
    SortedCons(s[0], t);
    assert multiset([s[0]] + t) == multiset{s[0]} + multiset(t);
  }

  lemma SortedCons(a: int, t: seq<int>)
    requires Sorted(t) && forall i :: 0 <= i < |t| ==> a <= t[i]
    ensures Sorted([a] + t)
  {
    var r := [a] + t;
    forall i, j | 0 <= i < j < |r|
      ensures r[i] <= r[j]
    {
      if i > 0 {
        assert r[i] == t[i - 1] && r[j] == t[j - 1];
      }
    }
  }

  /** `List.Sort` by span: the same spans, in ascending order. */
  function SortSpans(s: seq<int>): (r: seq<int>)
    ensures Sorted(r) && multiset(r) == multiset(s)
  {
    if s == [] then []
    else
      assert s == [s[0]] + s[1..];
      Insert(s[0], SortSpans(s[1..]))
  }

  function Sum(s: seq<int>): int {
    if s == [] then 0 else s[0] + Sum(s[1..])
  }

  function SumMilliseconds(s: seq<int>): int {
    if s == [] then 0 else MillisecondsPart(s[0]) + SumMilliseconds(s[1..])
  }

  /**
   * `DisplayPingInfo` as written: after sorting by span, the millisecond component of the
   * first and of the last span, and the integer average of the millisecond components.
   */
  function ReportAsWritten(spans: seq<int>): PingReport
    requires |spans| > 0
  {
    var r := SortSpans(spans);
    PingReport(MillisecondsPart(r[0]), MillisecondsPart(r[|r| - 1]), TruncDiv(SumMilliseconds(r), |r|))
  }

  /** The report on whole spans: the shortest, the longest and the integer average. */
  function Report(spans: seq<int>): (p: PingReport)
    requires |spans| > 0
    ensures p.min in spans && p.max in spans
    ensures forall s :: s in spans ==> p.min <= s <= p.max
    ensures p.min <= p.avg <= p.max
    ensures p.avg == TruncDiv(Sum(spans), |spans|)
  {
    var r := SortSpans(spans);
    SortedExtremes(r, spans);
    SumPerm(r, spans);
    SumBounds(r, r[0], r[|r| - 1]);
    TruncDivBounds(Sum(r), |r|, r[0], r[|r| - 1]);
    PingReport(r[0], r[|r| - 1], TruncDiv(Sum(r), |r|))
  }

  /** The first and last of a sorted permutation are the least and greatest elements. */
  lemma SortedExtremes(r: seq<int>, spans: seq<int>)
    requires Sorted(r) && multiset(r) == multiset(spans) && |r| > 0
    ensures r[0] in spans && r[|r| - 1] in spans
    ensures forall s :: s in spans ==> r[0] <= s <= r[|r| - 1]
    ensures forall i :: 0 <= i < |r| ==> r[0] <= r[i] <= r[|r| - 1]
  {
    assert r[0] in multiset(r) && r[|r| - 1] in multiset(r);
    forall s | s in spans
      ensures r[0] <= s <= r[|r| - 1]
    {
      assert s in multiset(spans);
      assert s in r;
    }
  }

  lemma {:induction false} SumAppend(a: seq<int>, b: seq<int>)
    ensures Sum(a + b) == Sum(a) + Sum(b)
  {
    if a == [] {
      assert a + b == b;
    } else {
      assert (a + b)[1..] == a[1..] + b;
      SumAppend(a[1..], b);
    }
  }

  /** Taking out the element at `j` takes its value off the sum. */
  lemma SumRemove(s: seq<int>, j: int)
    requires 0 <= j < |s|
    ensures Sum(s) == s[j] + Sum(s[..j] + s[j + 1..])
  {
    assert s == s[..j] + ([s[j]] + s[j + 1..]);
    SumAppend(s[..j], [s[j]] + s[j + 1..]);
    SumAppend([s[j]], s[j + 1..]);
    SumAppend(s[..j], s[j + 1..]);
  }

  /** Sequences with the same elements, counted with multiplicity, have the same sum. */
  lemma {:induction false} SumPerm(a: seq<int>, b: seq<int>)
    requires multiset(a) == multiset(b)
    ensures Sum(a) == Sum(b)
    decreases |a|
  {
    if a == [] {
      assert |b| == |multiset(b)| == 0;
    } else {
      var x := a[0];
      assert x in multiset(b);
      var j :| 0 <= j < |b| && b[j] == x;
      var rest := b[..j] + b[j + 1..];
      assert b == b[..j] + [x] + b[j + 1..];
      assert a == [x] + a[1..];
      assert multiset(b) == multiset(b[..j]) + multiset{x} + multiset(b[j + 1..]);
      assert multiset(a) == multiset{x} + multiset(a[1..]);
      assert multiset(rest) == multiset(b[..j]) + multiset(b[j + 1..]);
      assert multiset(a[1..]) == multiset(a) - multiset{x};
      assert multiset(rest) == multiset(b) - multiset{x};
      SumPerm(a[1..], rest);
      SumRemove(b, j);
    }
  }

  lemma {:induction false} SumBounds(s: seq<int>, lo: int, hi: int)
    requires forall i :: 0 <= i < |s| ==> lo <= s[i] <= hi
    ensures |s| * lo <= Sum(s) <= |s| * hi
  {
    if s != [] {
      SumBounds(s[1..], lo, hi);
    }
  }

  lemma TruncDivBounds(a: int, n: int, lo: int, hi: int)
    requires n > 0 && n * lo <= a <= n * hi
    ensures lo <= TruncDiv(a, n) <= hi
  {
    if a >= 0 {
      DivBounds(a, n, lo, hi);
    } else {
      DivBounds(-a, n, -hi, -lo);
    }
  }

  /** Euclidean division by a positive number keeps the bounds it scales. */
  lemma DivBounds(a: int, n: int, lo: int, hi: int)
    requires n > 0 && n * lo <= a <= n * hi
    ensures lo <= a / n <= hi
  {
    var q, r := a / n, a % n;
    assert a == q * n + r && 0 <= r < n;
    if q < lo {
      MulMonotone(q + 1, lo, n);
      assert false;
    }
    if q > hi {
      MulMonotone(hi + 1, q, n);
      assert false;
    }
  }

  lemma MulMonotone(x: int, y: int, n: int)
    requires x <= y && n >= 0
    ensures x * n <= y * n
  {
    assert y * n - x * n == (y - x) * n;
  }

  /**
   * Two pongs 999 ms and 1000 ms after their pings: sorted by span they come in that order,
   * but the millisecond components are 999 and 0, so the report shows a minimum of 999
   * above a maximum of 0.
   */
  lemma ReportAsWrittenMinAboveMax()
    ensures ReportAsWritten([999, 1000]) == PingReport(999, 0, 499)
    ensures Report([999, 1000]) == PingReport(999, 1000, 999)
  {
    var r := [999, 1000];
    assert SortSpans([1000]) == [1000];
    assert SortSpans(r) == r;
    assert SumMilliseconds(r) == 999 && Sum(r) == 1999;
  }

  /** Below one second the millisecond component is the whole span, and the two reports agree. */
  lemma ReportsAgreeBelowOneSecond(spans: seq<int>)
    requires |spans| > 0
    requires forall s :: s in spans ==> 0 <= s < 1000
    ensures ReportAsWritten(spans) == Report(spans)
  {
    var r := SortSpans(spans);
    forall i | 0 <= i < |r|
      ensures 0 <= r[i] < 1000
    {
      assert r[i] in multiset(r);
      assert r[i] in spans;
    }
    SumMillisecondsOfShort(r);
  }

  lemma {:induction false} SumMillisecondsOfShort(s: seq<int>)
    requires forall i :: 0 <= i < |s| ==> 0 <= s[i] < 1000
    ensures SumMilliseconds(s) == Sum(s)
  {
    if s != [] {
      SumMillisecondsOfShort(s[1..]);
    }
  }

  // ---------------------------------------------------------------- the form

  /** The number of pings one click of the ping button sends. */
  const PingCount: nat := 10

  /** The connection settings: `_ip`, `_port`, `_userName`, `_password`. */
  datatype MqttParas = MqttParas(ip: string, port: Int32, userName: string, password: string)

  /** The sending settings: `_loop`, `_fps`, `_start`, `_stop`. */
  datatype SendParas = SendParas(loop: bool, fps: Int32, start: Int32, stop: Int32)

  /**
   * `CheckMqttParas` on the stored settings `p`: the trimmed address, port, user name and
   * password in turn, each stored as it is read; the first that is empty (or, for the port,
   * not an `int`) rejects. A port that does not parse is stored as 0.
   */
  function ReadMqttParas(p: MqttParas, ipText: string, portText: string, userText: string, pwdText: string): (bool, MqttParas) {
    var ip := Trim(ipText);
    if ip == [] then (false, p.(ip := ip)) else
    var port := ParseInt32(Trim(portText));
    if port.None? then (false, p.(ip := ip, port := 0)) else
    var userName := Trim(userText);
    if userName == [] then (false, p.(ip := ip, port := port.value, userName := userName)) else
    var password := Trim(pwdText);
    (password != [], MqttParas(ip, port.value, userName, password))
  }

  /**
   * `CheckSendParas` on the stored settings `p`: the loop flag, then the frame rate (an `int`
   * above 0), the start value and the stop value (each an `int`, not negative), each stored
   * as it is read; the first that fails rejects. A value that does not parse is stored as 0.
   */
  function ReadSendParas(p: SendParas, loopChecked: bool, fpsText: string, startText: string, stopText: string): (bool, SendParas) {
    StoreSendParas(p, loopChecked, ParseInt32(Trim(fpsText)), ParseInt32(Trim(startText)), ParseInt32(Trim(stopText)))
  }

  /** The checks of `CheckSendParas` on the parsed fields, None for a field that does not parse. */
  function StoreSendParas(p: SendParas, loop: bool, fps: Option<Int32>, start: Option<Int32>, stop: Option<Int32>): (bool, SendParas) {
    var p1 := p.(loop := loop, fps := fps.GetOr(0));
    if fps.None? || p1.fps <= 0 then (false, p1) else
    var p2 := p1.(start := start.GetOr(0));
    if start.None? || p2.start < 0 then (false, p2) else
    var p3 := p2.(stop := stop.GetOr(0));
    (stop.Some? && p3.stop >= 0, p3)
  }

  // ---------------------------------------------------------------- the ping dictionary

  /**
   * `_pingDic` is a `Dictionary<string, PingInfo>` that is cleared and then only added to,
   * so it lists its entries in insertion order: it is modelled as that list of entries,
   * each under its own key.
   */
  predicate DistinctKeys(pings: seq<PingInfo>) {
    forall i, j :: 0 <= i < j < |pings| ==> pings[i].key != pings[j].key
  }

  /** The dictionary lookup: the position of the entry under `key`, if there is one. */
  function Find(pings: seq<PingInfo>, key: string): (r: Option<nat>)
    ensures r.Some? ==> r.value < |pings| && pings[r.value].key == key
    ensures r.None? ==> forall i :: 0 <= i < |pings| ==> pings[i].key != key
  {
    if pings == [] then None
    else if pings[0].key == key then Some(0)
    else match Find(pings[1..], key)
      case None => None
      case Some(i) => Some(i + 1)
  }

  /** The number of entries whose pong came back (`Values.Count(p => p.Received)`). */
  function CountReceived(pings: seq<PingInfo>): (n: nat)
    ensures n <= |pings|
  {
    if pings == [] then 0 else (if pings[0].received then 1 else 0) + CountReceived(pings[1..])
  }

  /** The spans of the entries, in the dictionary's order. */
  function SpansOf(pings: seq<PingInfo>): (r: seq<int>)
    ensures |r| == |pings|
  {
    seq(|pings|, i requires 0 <= i < |pings| => pings[i].Span())
  }

  /** The entries one click of the ping button creates: unanswered pings sent at `now`. */
  predicate Unanswered(pings: seq<PingInfo>, keys: seq<string>, now: seq<int>)
    requires |keys| == |now|
  {
    |pings| == |keys| && forall i :: 0 <= i < |pings| ==> pings[i] == PingInfo(keys[i], now[i], 0, false)
  }

  class SendForm {
    var mqtt: MqttParas
    var send: SendParas
    /** `_pingDic`, in insertion order. */
    var pings: seq<PingInfo>
    /** The keys handed to the handler's `PublishPing`, oldest first. */
    var pinged: seq<string>
    /** The lines written to the log list box. */
    var log: seq<string>
    /** The ping results shown. */
    var reports: seq<PingReport>

    ghost predicate Valid()
      reads this
    {
      DistinctKeys(pings)
    }

    constructor()
      ensures Valid()
      ensures mqtt == MqttParas("127.0.0.1", 61613, "admin", "password")
      ensures send == SendParas(false, 20, 0, 30000)
      ensures pings == [] && pinged == [] && log == [] && reports == []
    {
      mqtt := MqttParas("127.0.0.1", 61613, "admin", "password");
      send := SendParas(false, 20, 0, 50 * 60 * 10);
      pings := [];
      pinged := [];
      log := [];
      reports := [];
    }

    /**
     * `buttonPing_Click`: clear the tracker, then for each of ten fresh keys record an
     * unanswered ping sent now and publish a ping carrying the key.
     */
    method ButtonPingClick(keys: seq<string>, now: seq<int>)
      requires |keys| == PingCount && |now| == PingCount
      requires forall i, j :: 0 <= i < j < |keys| ==> keys[i] != keys[j]
      modifies this
      ensures Valid() && Unanswered(pings, keys, now)
      ensures pinged == old(pinged) + keys
      ensures mqtt == old(mqtt) && send == old(send) && log == old(log) && reports == old(reports)
    {
      pings := [];
      var i := 0;
      while i < PingCount
        invariant 0 <= i <= PingCount
        invariant Unanswered(pings, keys[..i], now[..i])
        invariant pinged == old(pinged) + keys[..i]
        invariant mqtt == old(mqtt) && send == old(send) && log == old(log) && reports == old(reports)
      {
        var key := keys[i];
        pings := pings + [PingInfo(key, now[i], 0, false)];
        pinged := pinged + [key];
        assert keys[..i + 1] == keys[..i] + [key];
        assert now[..i + 1] == now[..i] + [now[i]];
        i := i + 1;
      }
      assert keys[..PingCount] == keys && now[..PingCount] == now;
    }

    /**
     * `OnPangMsgSafePost`: a pong with an empty key or a key not being tracked only writes a
     * log line. A known key marks that entry received at `now` and, once every entry is
     * received, shows the ping result.
     */
    method OnPangMsgSafePost(state: Option<string>, now: int)
      requires Valid()
      modifies this
      ensures Valid() && pinged == old(pinged) && mqtt == old(mqtt) && send == old(send)
      ensures OrEmpty(state) == [] ==>
        && pings == old(pings) && reports == old(reports)
        && log == old(log) + ["OnPangMsgSafePost para is null or empty."]
      ensures OrEmpty(state) != [] && Find(old(pings), OrEmpty(state)).None? ==>
        && pings == old(pings) && reports == old(reports)
        && log == old(log) + ["OnPangMsgSafePost undefined key " + OrEmpty(state) + "."]
      ensures OrEmpty(state) != [] && Find(old(pings), OrEmpty(state)).Some? ==>
        var i := Find(old(pings), OrEmpty(state)).value;
        && pings == old(pings)[i := old(pings)[i].(recvTime := now, received := true)]
        && log == old(log)
        && reports == old(reports) + (if CountReceived(pings) == |pings| then [ReportAsWritten(SpansOf(pings))] else [])
    {
      var key := OrEmpty(state);
      if key == [] {
        log := log + ["OnPangMsgSafePost para is null or empty."];
        return;
      }
      var found := Find(pings, key);
      if found.None? {
        log := log + ["OnPangMsgSafePost undefined key " + key + "."];
        return;
      }
      var i := found.value;
      pings := pings[i := pings[i].(recvTime := now, received := true)];
      if CountReceived(pings) == |pings| {
        DisplayPingInfo();
      }
    }

    /** `DisplayPingInfo`: show the report over the spans of every tracked ping. */
    method DisplayPingInfo()
      requires |pings| > 0
      modifies this
      ensures pings == old(pings) && pinged == old(pinged) && mqtt == old(mqtt) && send == old(send) && log == old(log)
      ensures reports == old(reports) + [ReportAsWritten(SpansOf(pings))]
    {
      reports := reports + [ReportAsWritten(SpansOf(pings))];
    }

    /** `CheckMqttParas`: read and store the connection settings. */
    method CheckMqttParas(ipText: string, portText: string, userText: string, pwdText: string) returns (ok: bool)
      modifies this
      ensures (ok, mqtt) == ReadMqttParas(old(mqtt), ipText, portText, userText, pwdText)
      ensures unchanged(this`send, this`pings, this`pinged, this`log, this`reports)
    {
      var r := ReadMqttParas(mqtt, ipText, portText, userText, pwdText);
      ok, mqtt := r.0, r.1;
    }

    /** `CheckSendParas`: read and store the sending settings. */
    method CheckSendParas(loopChecked: bool, fpsText: string, startText: string, stopText: string) returns (ok: bool)
      modifies this
      ensures (ok, send) == ReadSendParas(old(send), loopChecked, fpsText, startText, stopText)
      ensures unchanged(this`mqtt, this`pings, this`pinged, this`log, this`reports)
    {
      var r := ReadSendParas(send, loopChecked, fpsText, startText, stopText);
      ok, send := r.0, r.1;
    }
  }

  // ---------------------------------------------------------------- properties

  /**
   * The connection settings are accepted exactly when all four fields are present and the
   * port is an `int`; then all four are stored. Reading stops at the first field that fails,
   * keeping the later stored values.
   */
  lemma MqttParasAccepted(p: MqttParas, ipText: string, portText: string, userText: string, pwdText: string)
    ensures var r := ReadMqttParas(p, ipText, portText, userText, pwdText);
      && (r.0 <==> Trim(ipText) != [] && ParseInt32(Trim(portText)).Some? && Trim(userText) != [] && Trim(pwdText) != [])
      && (r.0 ==> r.1 == MqttParas(Trim(ipText), ParseInt32(Trim(portText)).value, Trim(userText), Trim(pwdText)))
      && r.1.ip == Trim(ipText)
      && (Trim(ipText) == [] ==> r.1 == p.(ip := []))
      && (Trim(ipText) != [] && ParseInt32(Trim(portText)).None? ==> r.1 == p.(ip := Trim(ipText), port := 0))
  {
  }

  /**
   * The sending settings are accepted exactly when the frame rate is a positive `int` and the
   * start and stop values are `int`s that are not negative; then all four are stored. The
   * loop flag and the frame rate are stored whatever follows.
   */
  lemma SendParasAccepted(p: SendParas, loopChecked: bool, fpsText: string, startText: string, stopText: string)
    ensures var r := ReadSendParas(p, loopChecked, fpsText, startText, stopText);
      && (r.0 <==>
          && ParseInt32(Trim(fpsText)).Some? && ParseInt32(Trim(fpsText)).value > 0
          && ParseInt32(Trim(startText)).Some? && ParseInt32(Trim(startText)).value >= 0
          && ParseInt32(Trim(stopText)).Some? && ParseInt32(Trim(stopText)).value >= 0)
      && (r.0 ==> r.1 == SendParas(loopChecked, ParseInt32(Trim(fpsText)).value,
                                   ParseInt32(Trim(startText)).value, ParseInt32(Trim(stopText)).value))
      && r.1.loop == loopChecked && r.1.fps == ParseInt32(Trim(fpsText)).GetOr(0)
  {
    StoredSendParas(p, loopChecked, ParseInt32(Trim(fpsText)), ParseInt32(Trim(startText)), ParseInt32(Trim(stopText)));
  }

  lemma StoredSendParas(p: SendParas, loop: bool, fps: Option<Int32>, start: Option<Int32>, stop: Option<Int32>)
    ensures var r := StoreSendParas(p, loop, fps, start, stop);
      && (r.0 <==> fps.Some? && fps.value > 0 && start.Some? && start.value >= 0 && stop.Some? && stop.value >= 0)
      && (r.0 ==> r.1 == SendParas(loop, fps.value, start.value, stop.value))
      && r.1.loop == loop && r.1.fps == fps.GetOr(0)
  {
  }

  /**
   * The received count equals the number of entries exactly when every entry is received,
   * so the result is shown exactly when the last missing pong arrives, and again for every
   * later pong with a tracked key.
   */
  lemma {:induction false} AllReceivedIff(pings: seq<PingInfo>)
    ensures CountReceived(pings) == |pings| <==> forall i :: 0 <= i < |pings| ==> pings[i].received
  {
    if pings != [] {
      AllReceivedIff(pings[1..]);
      if CountReceived(pings) == |pings| {
        assert pings[0].received;
      }
      if forall i :: 0 <= i < |pings| ==> pings[i].received {
        assert forall i :: 0 <= i < |pings[1..]| ==> pings[1..][i].received by {
          forall i | 0 <= i < |pings[1..]|
            ensures pings[1..][i].received
          {
            assert pings[1..][i] == pings[i + 1];
          }
        }
      }
    }
  }
}

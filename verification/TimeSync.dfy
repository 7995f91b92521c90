/** The time-sync connection of pkg/powermonitor: length-prefixed commands over a
    connection that may accept only part of a write. */
module TimeSync {
  import opened Prelude
  import opened Text

  newtype Byte = n: int | 0 <= n < 256

  /** Go's int64, the type of `time.Now().Unix()`. */
  type Int64 = t: int | -0x8000_0000_0000_0000 <= t < 0x8000_0000_0000_0000

  function Signed(t: int): string {
    if t < 0 then "-" + Decimal(Abs(t)) else Decimal(Abs(t))
  }

  function Abs(t: int): nat { if t < 0 then -t else t }

  function Command(t: Int64): string { "date -s @" + Signed(t) }

  predicate Ascii(s: string) {
    forall i :: 0 <= i < |s| ==> s[i] < 128 as char
  }

  function Bytes(s: string): (b: seq<Byte>)
    requires Ascii(s)
    ensures |b| == |s| && forall i :: 0 <= i < |s| ==> b[i] as int == s[i] as int
  {
    seq(|s|, i requires 0 <= i < |s| => s[i] as int as Byte)
  }

  /** `binary.LittleEndian.PutUint16` of a length cut to 16 bits. */
  function Header(length: nat): (h: seq<Byte>)
    ensures |h| == 2
  {
    var n := length % 0x1_0000;
    [(n % 256) as Byte, (n / 256) as Byte]
  }

  lemma TenPower19()
    ensures Pow10(19) == 10_000_000_000_000_000_000
  {
    assert Pow10(2) == 100;
    assert Pow10(4) == 10_000;
    assert Pow10(6) == 1_000_000;
    assert Pow10(8) == 100_000_000;
    assert Pow10(10) == 10_000_000_000;
    assert Pow10(12) == 1_000_000_000_000;
    assert Pow10(14) == 100_000_000_000_000;
    assert Pow10(16) == 10_000_000_000_000_000;
    assert Pow10(18) == 1_000_000_000_000_000_000;
  }

  lemma DigitsShape(n: nat)
    requires n <= 0x8000_0000_0000_0000
    ensures Ascii(Decimal(n)) && |Decimal(n)| <= 19
  {
    DecimalValue(n);
    TenPower19();
    DecimalLength(n, 19);
    var d := Decimal(n);
    assert forall i :: 0 <= i < |d| ==> IsDigit(d[i]);
  }

  lemma AsciiAppend(a: string, b: string)
    requires Ascii(a) && Ascii(b)
    ensures Ascii(a + b)
  {
  }

  /** Every command fits the 16-bit length. */
  lemma CommandShape(t: Int64)
    ensures Ascii(Command(t)) && |Command(t)| <= 29
  {
    DigitsShape(Abs(t));
    AsciiAppend("-", Decimal(Abs(t)));
    AsciiAppend("date -s @", Signed(t));
  }

  function Frame(t: Int64): seq<Byte> {
    CommandShape(t);
    Header(|Command(t)|) + Bytes(Command(t))
  }

  function Frames(ts: seq<Int64>): seq<Byte> {
    if ts == [] then [] else Frames(ts[..|ts| - 1]) + Frame(ts[|ts| - 1])
  }

  // --------------------------------------------------------------- the guest

  /** What a reader makes of the stream: complete payloads, and what is left over. */
  function Decode(s: seq<Byte>): (seq<seq<Byte>>, seq<Byte>)
    decreases |s|
  {
    if |s| < 2 then ([], s) else
    var n := s[0] as int + 256 * s[1] as int;
    if |s| < 2 + n then ([], s) else
    var (payloads, rest) := Decode(s[2 + n..]);
    ([s[2..2 + n]] + payloads, rest)
  }

  function Payloads(ts: seq<Int64>): seq<seq<Byte>> {
    seq(|ts|, i requires 0 <= i < |ts| => Payload(ts[i]))
  }

  function Payload(t: Int64): seq<Byte> {
    CommandShape(t);
    Bytes(Command(t))
  }

  lemma DecodeFrame(t: Int64, rest: seq<Byte>)
    ensures Decode(Frame(t) + rest) == ([Payload(t)] + Decode(rest).0, Decode(rest).1)
  {
    CommandShape(t);
    HeaderValue(|Command(t)|);
    DecodeOne(Header(|Command(t)|), Payload(t), rest);
  }

  lemma HeaderValue(n: nat)
    requires n < 0x1_0000
    ensures Header(n)[0] as int + 256 * Header(n)[1] as int == n
  {
  }

  lemma DecodeOne(h: seq<Byte>, p: seq<Byte>, rest: seq<Byte>)
    requires |h| == 2 && h[0] as int + 256 * h[1] as int == |p|
    ensures Decode(h + p + rest) == ([p] + Decode(rest).0, Decode(rest).1)
  {
    var s := h + p + rest;
    assert s[2..2 + |p|] == p && s[2 + |p|..] == rest;
  }

  lemma DecodePartial(t: Int64, m: nat)
    requires m < |Frame(t)|
    ensures Decode(Frame(t)[..m]) == ([], Frame(t)[..m])
  {
    CommandShape(t);
    if 2 <= m {
      HeaderValue(|Command(t)|);
      assert Frame(t)[..m][0] == Header(|Command(t)|)[0] && Frame(t)[..m][1] == Header(|Command(t)|)[1];
    }
  }

  lemma PayloadsLast(ts: seq<Int64>)
    requires ts != []
    ensures Payloads(ts) == Payloads(ts[..|ts| - 1]) + [Payload(ts[|ts| - 1])]
  {
  }

  lemma {:induction false} DecodeFrames(ts: seq<Int64>, rest: seq<Byte>)
    ensures Decode(Frames(ts) + rest) == (Payloads(ts) + Decode(rest).0, Decode(rest).1)
  {
    if ts == [] {
      assert Frames(ts) + rest == rest && Payloads(ts) + Decode(rest).0 == Decode(rest).0;
    } else {
      var prev, t := ts[..|ts| - 1], ts[|ts| - 1];
      Assoc(Frames(prev), Frame(t), rest);
      DecodeFrames(prev, Frame(t) + rest);
      DecodeFrame(t, rest);
      Assoc(Payloads(prev), [Payload(t)], Decode(rest).0);
      PayloadsLast(ts);
    }
  }

  /** Whole frames followed by any part of one more decode to exactly the commands
      sent, an incomplete one staying undecoded. */
  lemma StreamDecodes(ts: seq<Int64>, t: Int64, m: nat)
    requires m <= |Frame(t)|
    ensures Decode(Frames(ts) + Frame(t)[..m]) ==
            if m < |Frame(t)| then (Payloads(ts), Frame(t)[..m]) else (Payloads(ts + [t]), [])
  {
    if m < |Frame(t)| {
      DecodeFrames(ts, Frame(t)[..m]);
      DecodePartial(t, m);
      assert Payloads(ts) + [] == Payloads(ts);
    } else {
      FramesNext(ts, t);
      DecodeFrames(ts + [t], []);
      assert Frame(t)[..m] == Frame(t);
      assert Frames(ts + [t]) + [] == Frames(ts + [t]) && Payloads(ts + [t]) + [] == Payloads(ts + [t]);
    }
  }

  /** Different times are different commands, so the guest learns the time. */
  lemma PayloadInjective(t: Int64, u: Int64)
    requires Payload(t) == Payload(u)
    ensures t == u
  {
    CommandShape(t);
    CommandShape(u);
    var c, d := Command(t), Command(u);
    forall i | 0 <= i < |c| ensures c[i] == d[i] {
      assert Payload(t)[i] == Payload(u)[i];
    }
    assert c == d;
    assert c[9..] == Signed(t) && d[9..] == Signed(u);
    SignedInjective(t, u);
  }

  lemma SignedInjective(t: int, u: int)
    requires Signed(t) == Signed(u)
    ensures t == u
  {
    var m, n := Abs(t), Abs(u);
    DecimalValue(m);
    DecimalValue(n);
    assert IsDigit(Decimal(m)[0]) && IsDigit(Decimal(n)[0]);
    if t < 0 && u < 0 {
      assert Signed(t)[1..] == Decimal(m) && Signed(u)[1..] == Decimal(n);
    }
  }

  /** How the guest understands a command: `date -s @`, an optional sign, digits. */
  function ReadNumber(s: string): Option<int> {
    if s != [] && s[0] == '-' then
      if s[1..] != [] && AllDigits(s[1..]) then Some(-(Value(s[1..]) as int)) else None
    else if s != [] && AllDigits(s) then Some(Value(s) as int) else None
  }

  function Chars(p: seq<Byte>): (s: string)
    ensures |s| == |p| && forall i :: 0 <= i < |p| ==> s[i] as int == p[i] as int
  {
    seq(|p|, i requires 0 <= i < |p| => p[i] as int as char)
  }

  function ReadTime(p: seq<Byte>): Option<int> {
    var s := Chars(p);
    if |s| > 9 && s[..9] == "date -s @" then ReadNumber(s[9..]) else None
  }

  lemma SignedRead(t: int)
    ensures Signed(t) != [] && ReadNumber(Signed(t)) == Some(t)
  {
    DecimalValue(Abs(t));
    assert IsDigit(Decimal(Abs(t))[0]);
    if t < 0 {
      assert Signed(t)[1..] == Decimal(Abs(t));
    }
  }

  /** The guest reads every time back from its command. */
  lemma TimeRead(t: Int64)
    ensures ReadTime(Payload(t)) == Some(t)
  {
    CommandShape(t);
    SignedRead(t);
    var c := Command(t);
    assert Chars(Payload(t)) == c;
    assert c[..9] == "date -s @" && c[9..] == Signed(t);
  }

  /** The payloads that the guest decodes from `got` name the times `ts`, in order. */
  ghost predicate GuestLearns(got: seq<Byte>, ts: seq<Int64>) {
    var payloads := Decode(got).0;
    |payloads| == |ts| && forall i :: 0 <= i < |ts| ==> ReadTime(payloads[i]) == Some(ts[i] as int)
  }

  lemma PayloadsLearnt(got: seq<Byte>, ts: seq<Int64>)
    requires Decode(got).0 == Payloads(ts)
    ensures GuestLearns(got, ts)
  {
    forall i | 0 <= i < |ts| ensures ReadTime(Payloads(ts)[i]) == Some(ts[i] as int) {
      TimeRead(ts[i]);
    }
  }

  // -------------------------------------------------------------- the writers

  /** One `Write` of the connection: so many bytes accepted, with or without error. */
  datatype Outcome = Accept(n: nat) | Fail(n: nat)

  function Min(a: nat, b: nat): nat { if a <= b then a else b }

  class Conn {
    var wire: seq<Byte>
    var calls: nat
    const script: seq<Outcome>   // then every write fails

    constructor (script: seq<Outcome>)
      ensures wire == [] && calls == 0 && this.script == script
    {
      wire, calls := [], 0;
      this.script := script;
    }

    /** Whether the `i`-th write succeeds. */
    predicate Accepts(i: nat) { i < |script| && script[i].Accept? }

    method Write(data: seq<Byte>) returns (n: nat, ok: bool)
      modifies this
      ensures calls == old(calls) + 1 && ok == Accepts(old(calls))
      ensures n == if old(calls) < |script| then Min(script[old(calls)].n, |data|) else 0
      ensures wire == old(wire) + data[..n]
    {
      ok := Accepts(calls);
      n := if calls < |script| then Min(script[calls].n, |data|) else 0;
      wire := wire + data[..n];
      calls := calls + 1;
    }
  }

  /** The writes made since `before`: all succeeded, or all but the last did. */
  ghost predicate AllAccepted(conn: Conn, before: nat) reads conn {
    forall i :: before <= i < conn.calls ==> conn.Accepts(i)
  }

  ghost predicate OnlyLastFailed(conn: Conn, before: nat) reads conn {
    && before < conn.calls && !conn.Accepts(conn.calls - 1)
    && forall i :: before <= i < conn.calls - 1 ==> conn.Accepts(i)
  }

  predicate Progress(script: seq<Outcome>) {
    forall i :: 0 <= i < |script| && script[i].Accept? ==> script[i].n > 0
  }

  /** The loop of `writeConn`. It fails exactly when a write fails, and stops there;
      the connection has received a prefix of the data, and all of it after success.
      When every accepted write takes at least one byte there are no more writes than
      bytes. */
  method WriteConn(conn: Conn, data: seq<Byte>) returns (ok: bool, ghost sent: nat)
    modifies conn
    ensures sent <= |data| && conn.wire == old(conn.wire) + data[..sent]
    ensures ok ==> sent == |data|
    ensures old(conn.calls) < conn.calls
    ensures if ok then AllAccepted(conn, old(conn.calls)) else OnlyLastFailed(conn, old(conn.calls))
    ensures Progress(conn.script) ==> conn.calls - old(conn.calls) <= if data == [] then 1 else |data|
  {
    var total := 0;
    while true
      invariant total <= |data| && conn.wire == old(conn.wire) + data[..total]
      invariant conn.calls >= old(conn.calls) && AllAccepted(conn, old(conn.calls))
      invariant conn.calls > old(conn.calls) ==> total < |data|
      invariant Progress(conn.script) ==> conn.calls - old(conn.calls) <= total
      decreases |conn.script| - conn.calls
    {
      var now, written := conn.Write(data[total..]);
      assert data[..total] + data[total..][..now] == data[..total + now];
      if !written { return false, total + now; }
      total := total + now;
      if total == |data| { return true, total; }
    }
  }

  /** Header, then command. */
  method SendFrame(conn: Conn, t: Int64) returns (ok: bool, ghost sent: nat)
    modifies conn
    ensures sent <= |Frame(t)| && conn.wire == old(conn.wire) + Frame(t)[..sent]
    ensures ok ==> sent == |Frame(t)|
    ensures old(conn.calls) < conn.calls
    ensures if ok then AllAccepted(conn, old(conn.calls)) else OnlyLastFailed(conn, old(conn.calls))
  {
    CommandShape(t);
    var command := Bytes(Command(t));
    var header := Header(|command|);
    ok, sent := WriteConn(conn, header);
    assert header[..sent] == Frame(t)[..sent];
    if !ok { return; }
    ghost var more;
    ok, more := WriteConn(conn, command);
    sent := 2 + more;
    Assoc(old(conn.wire), header[..2], command[..more]);
    assert header[..2] + command[..more] == Frame(t)[..sent];
  }

  lemma FramesNext(ts: seq<Int64>, t: Int64)
    ensures Frames(ts + [t]) == Frames(ts) + Frame(t)
  {
    assert (ts + [t])[..|ts|] == ts;
  }

  /** A request for time sync: the clock, and whether the guest is connected. */
  datatype Tick = Tick(time: Int64, connected: bool)

  function Times(ticks: seq<Tick>): seq<Int64> {
    if ticks == [] then [] else
      var prev, t := Times(ticks[..|ticks| - 1]), ticks[|ticks| - 1];
      if t.connected then prev + [t.time] else prev
  }

  /** What a connection that held `was` carries after the requests `ts`: the frames of
      all of them, or after a failure those of the first `done` and part of the next. */
  ghost predicate Carries(was: seq<Byte>, wire: seq<Byte>, ts: seq<Int64>, ok: bool, done: nat, part: nat) {
    if ok then done == |ts| && wire == was + Frames(ts)
    else done < |ts| && part <= |Frame(ts[done])| && wire == was + (Frames(ts[..done]) + Frame(ts[done])[..part])
  }

  /** What the guest makes of the new bytes: the times of exactly the frames that are
      complete, and the part of a frame that stays undecoded. */
  ghost predicate GuestReads(got: seq<Byte>, ts: seq<Int64>, ok: bool, done: nat, part: nat) {
    && (ok ==> GuestLearns(got, ts) && Decode(got).1 == [])
    && (!ok ==> done < |ts| && part <= |Frame(ts[done])|)
    && (!ok && part < |Frame(ts[done])| ==> GuestLearns(got, ts[..done]) && Decode(got).1 == Frame(ts[done])[..part])
    && (!ok && part == |Frame(ts[done])| ==> GuestLearns(got, ts[..done + 1]) && Decode(got).1 == [])
  }

  lemma CarriedIsRead(was: seq<Byte>, wire: seq<Byte>, ts: seq<Int64>, ok: bool, done: nat, part: nat)
    requires Carries(was, wire, ts, ok, done, part)
    ensures |was| <= |wire| && GuestReads(wire[|was|..], ts, ok, done, part)
  {
    if ok {
      WholeStream(was, ts);
      PayloadsLearnt(wire[|was|..], ts);
    } else {
      FailedLoop(was, ts, done, part);
      PayloadsLearnt(wire[|was|..], if part < |Frame(ts[done])| then ts[..done] else ts[..done + 1]);
    }
  }

  /** The sync loop until the context ends or a write fails. It fails exactly when a
      write fails, and makes no further one. Whatever the connection does, it carries
      the frames of the requests made while the guest was connected, in order, and
      after a failure part of one more; and the guest learns the times of exactly the
      frames that are complete. */
  method SyncLoop(conn: Conn, ticks: seq<Tick>) returns (ok: bool, ghost done: nat, ghost part: nat)
    modifies conn
    ensures old(conn.calls) <= conn.calls
    ensures if ok then AllAccepted(conn, old(conn.calls)) else OnlyLastFailed(conn, old(conn.calls))
    ensures Carries(old(conn.wire), conn.wire, Times(ticks), ok, done, part)
    ensures |old(conn.wire)| <= |conn.wire|
    ensures GuestReads(conn.wire[|old(conn.wire)|..], Times(ticks), ok, done, part)
  {
    ok, done, part := true, |Times(ticks)|, 0;
    for i := 0 to |ticks|
      invariant ok && done == |Times(ticks)|
      invariant old(conn.calls) <= conn.calls && AllAccepted(conn, old(conn.calls))
      invariant conn.wire == old(conn.wire) + Frames(Times(ticks[..i]))
    {
      assert ticks[..i + 1][..i] == ticks[..i];
      if !ticks[i].connected { continue; }
      TimesPrefix(ticks, i);
      ghost var n;
      ok, n := SendFrame(conn, ticks[i].time);
      Assoc(old(conn.wire), Frames(Times(ticks[..i])), Frame(ticks[i].time)[..n]);
      if !ok {
        done, part := |Times(ticks[..i])|, n;
        CarriedIsRead(old(conn.wire), conn.wire, Times(ticks), ok, done, part);
        return;
      }
      assert Frame(ticks[i].time)[..n] == Frame(ticks[i].time);
      FramesNext(Times(ticks[..i]), ticks[i].time);
    }
    assert ticks[..|ticks|] == ticks;
    CarriedIsRead(old(conn.wire), conn.wire, Times(ticks), ok, done, part);
  }

  lemma UpTo(ts: seq<Int64>, k: nat)
    requires k < |ts|
    ensures ts[..k] + [ts[k]] == ts[..k + 1]
  {
  }

  lemma Dropped(a: seq<Byte>, b: seq<Byte>)
    ensures (a + b)[|a|..] == b
  {
  }

  lemma WholeStream(wire: seq<Byte>, ts: seq<Int64>)
    ensures Decode((wire + Frames(ts))[|wire|..]) == (Payloads(ts), [])
  {
    DecodeFrames(ts, []);
    Dropped(wire, Frames(ts));
    assert Frames(ts) + [] == Frames(ts) && Payloads(ts) + [] == Payloads(ts);
  }

  lemma FailedStream(wire: seq<Byte>, ts: seq<Int64>, t: Int64, m: nat)
    requires m <= |Frame(t)|
    ensures Decode((wire + (Frames(ts) + Frame(t)[..m]))[|wire|..]) ==
            if m < |Frame(t)| then (Payloads(ts), Frame(t)[..m]) else (Payloads(ts + [t]), [])
  {
    Dropped(wire, Frames(ts) + Frame(t)[..m]);
    StreamDecodes(ts, t, m);
  }

  lemma FailedLoop(wire: seq<Byte>, ts: seq<Int64>, k: nat, m: nat)
    requires k < |ts| && m <= |Frame(ts[k])|
    ensures Decode((wire + (Frames(ts[..k]) + Frame(ts[k])[..m]))[|wire|..]) ==
            if m < |Frame(ts[k])| then (Payloads(ts[..k]), Frame(ts[k])[..m]) else (Payloads(ts[..k + 1]), [])
  {
    FailedStream(wire, ts[..k], ts[k], m);
    UpTo(ts, k);
  }

  lemma {:induction false} TimesPrefix(ticks: seq<Tick>, i: nat)
    requires i < |ticks| && ticks[i].connected
    ensures |Times(ticks[..i])| < |Times(ticks)|
    ensures Times(ticks)[..|Times(ticks[..i])|] == Times(ticks[..i])
    ensures Times(ticks)[|Times(ticks[..i])|] == ticks[i].time
  {
    if i < |ticks| - 1 {
      TimesPrefix(ticks[..|ticks| - 1], i);
      assert ticks[..|ticks| - 1][..i] == ticks[..i];
    } else {
      assert Times(ticks) == Times(ticks[..i]) + [ticks[i].time];
    }
  }
}

/** The server-sent events that `/exec` prints, and the client that reads them. */
module Sse {
  import opened Prelude
  import opened Text

  /** What the handler writes to the response. */
  datatype Emission = Out(text: string) | Error(text: string) | Ping | Done

  /** `strings.ReplaceAll(s, "\n", "\ndata: ")`. */
  function IndentLines(s: string): string {
    if s == [] then [] else
      (if s[0] == '\n' then "\ndata: " else [s[0]]) + IndentLines(s[1..])
  }

  function EncodeSSE(s: string): string { IndentLines(TrimSpace(s)) }

  function Block(kind: string, data: string): string {
    "event: " + kind + "\n" + "data: " + data + "\n\n"
  }

  function Render(e: Emission): string {
    match e
    case Out(text) => Block("out", EncodeSSE(text))
    case Error(text) => Block("error", EncodeSSE(text))
    case Ping => ": ping\n\n"
    case Done => Block("done", "done")
  }

  function RenderAll(es: seq<Emission>): string {
    if es == [] then [] else Render(es[0]) + RenderAll(es[1..])
  }

  // -------------------------------------------------------------- the client

  datatype Event = Event(kind: string, data: string)

  /** Parser state of section 9.2.6 "Interpreting an event stream" of the WHATWG
      HTML Living Standard, with the line being read (section 9.2.5). The last
      event ID and the reconnection time are not kept: `id` and `retry` fields
      never change which events are dispatched. */
  datatype Parser = Parser(line: string, kind: string, data: string, events: seq<Event>)

  const FRESH := Parser("", "", "", [])

  function Dispatch(p: Parser): Parser {
    if p.data == [] then p.(kind := "")
    else
      var data := if p.data[|p.data| - 1] == '\n' then p.data[..|p.data| - 1] else p.data;
      var kind := if p.kind == "" then "message" else p.kind;
      p.(kind := "", data := "", events := p.events + [Event(kind, data)])
  }

  function Field(p: Parser, name: string, value: string): Parser {
    if name == "event" then p.(kind := value)
    else if name == "data" then p.(data := p.data + value + "\n")
    else p
  }

  /** A complete line, its end already removed. */
  function EndLine(p: Parser): Parser {
    var l := p.line;
    var q := p.(line := "");
    if l == "" then Dispatch(q)
    else if l[0] == ':' then q
    else if ':' in l then
      var i := IndexOf(l, ':');
      var value := l[i + 1..];
      Field(q, l[..i], if value != [] && value[0] == ' ' then value[1..] else value)
    else Field(q, l, "")
  }

  /** Lines end at CR LF, at LF, or at a CR that no LF follows. */
  function Feed(p: Parser, s: string): Parser
    decreases |s|
  {
    if s == [] then p
    else if s[0] == '\n' then Feed(EndLine(p), s[1..])
    else if s[0] == '\r' then
      if |s| > 1 && s[1] == '\n' then Feed(EndLine(p), s[2..]) else Feed(EndLine(p), s[1..])
    else Feed(p.(line := p.line + [s[0]]), s[1..])
  }

  /** The events of a whole stream; an event that no empty line ends is dropped. */
  function Parse(stream: string): seq<Event> {
    Feed(FRESH, if stream != [] && stream[0] == '\U{FEFF}' then stream[1..] else stream).events
  }

  // ------------------------------------------------------------- round trip

  /** The payload a client should see: CR LF became LF. */
  function Normalize(s: string): string {
    if s == [] then [] else
    if s[0] == '\r' && |s| > 1 && s[1] == '\n' then Normalize(s[1..])
    else [s[0]] + Normalize(s[1..])
  }

  /** Every CR is immediately followed by LF. */
  predicate NoLoneCR(s: string) {
    forall i :: 0 <= i < |s| && s[i] == '\r' ==> i + 1 < |s| && s[i + 1] == '\n'
  }

  predicate Clean(e: Emission) {
    (e.Out? || e.Error?) ==> NoLoneCR(TrimSpace(e.text))
  }

  /** What a client should see of one emission. */
  function Seen(e: Emission): seq<Event> {
    match e
    case Out(text) => [Event("out", Normalize(TrimSpace(text)))]
    case Error(text) => [Event("error", Normalize(TrimSpace(text)))]
    case Ping => []
    case Done => [Event("done", "done")]
  }

  function Expected(es: seq<Emission>): seq<Event> {
    if es == [] then [] else Seen(es[0]) + Expected(es[1..])
  }

  lemma Assoc4(a: string, b: string, c: string, d: string)
    ensures a + b + c + d == a + (b + (c + d))
  {
    Assoc(a, b, c);
    Assoc(a, b + c, d);
    Assoc(b, c, d);
  }

  predicate OneLine(s: string) { '\n' !in s && '\r' !in s }

  lemma {:induction false} FeedText(p: Parser, s: string, rest: string)
    requires OneLine(s)
    ensures Feed(p, s + rest) == Feed(p.(line := p.line + s), rest)
    decreases |s|
  {
    if s == [] {
      assert s + rest == rest && p.line + s == p.line;
    } else {
      assert (s + rest)[1..] == s[1..] + rest;
      assert p.line + s == (p.line + [s[0]]) + s[1..];
      FeedText(p.(line := p.line + [s[0]]), s[1..], rest);
    }
  }

  lemma FeedLine(p: Parser, s: string, rest: string)
    requires OneLine(s)
    ensures Feed(p, s + ("\n" + rest)) == Feed(EndLine(p.(line := p.line + s)), rest)
  {
    FeedText(p, s, "\n" + rest);
    assert ("\n" + rest)[1..] == rest;
  }

  lemma EndDataLine(p: Parser, value: string)
    requires p.line == "data: " + value
    ensures EndLine(p) == p.(line := "", data := p.data + value + "\n")
  {
    assert p.line == "data" + [':'] + (" " + value);
    IndexOfAfter("data", ':', " " + value);
    assert p.line[..4] == "data" && p.line[5..] == " " + value && (" " + value)[1..] == value;
  }

  /** A line end inside a data line starts the next data line. */
  lemma FeedBreak(p: Parser, pre: string, eol: string, rest: string)
    requires p.line == "data: " + pre && (eol == "\n" || eol == "\r\n")
    ensures Feed(p, eol + ("data: " + rest)) == Feed(p.(line := "data: ", data := p.data + pre + "\n"), rest)
  {
    var t := "data: " + rest;
    assert (eol + t)[|eol|..] == t;
    EndDataLine(p, pre);
    var q := EndLine(p);
    FeedText(q, "data: ", rest);
    assert q.line + "data: " == "data: ";
  }

  lemma IndentBreak(s: string, tail: string)
    requires s != []
    ensures s[0] == '\n' ==> IndentLines(s) + tail == "\n" + ("data: " + (IndentLines(s[1..]) + tail))
    ensures s[0] != '\n' ==> IndentLines(s) + tail == [s[0]] + (IndentLines(s[1..]) + tail)
  {
    var rest := IndentLines(s[1..]);
    if s[0] == '\n' {
      assert "\ndata: " == "\n" + "data: ";
      Assoc4("\n", "data: ", rest, tail);
    } else {
      Assoc([s[0]], rest, tail);
    }
  }

  lemma IndentBreakCRLF(s: string, tail: string)
    requires |s| > 1 && s[0] == '\r' && s[1] == '\n'
    ensures IndentLines(s) + tail == "\r\n" + ("data: " + (IndentLines(s[2..]) + tail))
  {
    IndentBreak(s, tail);
    IndentBreak(s[1..], tail);
    assert s[1..][1..] == s[2..];
    assert "\r" + "\n" == "\r\n";
    Assoc("\r", "\n", "data: " + (IndentLines(s[2..]) + tail));
  }

  lemma NormalizeCRLF(s: string)
    requires |s| > 1 && s[0] == '\r' && s[1] == '\n'
    ensures Normalize(s) == "\n" + Normalize(s[2..])
  {
    assert s[1..][1..] == s[2..];
  }

  lemma JoinLines(data: string, pre: string, rest: string)
    ensures data + pre + "\n" + ("" + rest) + "\n" == data + (pre + ("\n" + rest)) + "\n"
  {
    assert "" + rest == rest;
    Assoc4(data, pre, "\n", rest);
  }

  /** The heart of the round trip: from inside a data line that began with `pre`,
      the rest of an encoded text ends up in the data buffer. */
  lemma {:induction false} FeedData(p: Parser, pre: string, s: string, rest: string)
    requires p.line == "data: " + pre && NoLoneCR(s)
    ensures Feed(p, IndentLines(s) + ("\n" + rest))
         == Feed(p.(line := "", data := p.data + (pre + Normalize(s)) + "\n"), rest)
    decreases |s|, 0
  {
    var tail := "\n" + rest;
    if s == [] {
      assert IndentLines(s) + tail == "" + tail;
      FeedLine(p, "", rest);
      assert p.line + "" == p.line;
      EndDataLine(p, pre);
      assert pre + Normalize(s) == pre;
    } else if s[0] == '\n' {
      IndentBreak(s, tail);
      FeedDataBreak(p, pre, "\n", s[1..], rest);
    } else if s[0] == '\r' {
      IndentBreakCRLF(s, tail);
      NormalizeCRLF(s);
      FeedDataBreak(p, pre, "\r\n", s[2..], rest);
    } else {
      IndentBreak(s, tail);
      FeedText(p, [s[0]], IndentLines(s[1..]) + tail);
      var q := p.(line := p.line + [s[0]]);
      Assoc("data: ", pre, [s[0]]);
      FeedData(q, pre + [s[0]], s[1..], rest);
      Assoc(pre, [s[0]], Normalize(s[1..]));
    }
  }

  lemma {:induction false} FeedDataBreak(p: Parser, pre: string, eol: string, s: string, rest: string)
    requires p.line == "data: " + pre && NoLoneCR(s) && (eol == "\n" || eol == "\r\n")
    ensures Feed(p, eol + ("data: " + (IndentLines(s) + ("\n" + rest))))
         == Feed(p.(line := "", data := p.data + (pre + ("\n" + Normalize(s))) + "\n"), rest)
    decreases |s|, 1
  {
    FeedBreak(p, pre, eol, IndentLines(s) + ("\n" + rest));
    var q := p.(line := "data: ", data := p.data + pre + "\n");
    assert q.line == "data: " + "";
    FeedData(q, "", s, rest);
    JoinLines(p.data, pre, Normalize(s));
  }

  predicate Between(p: Parser) { p.line == "" && p.kind == "" && p.data == "" }

  lemma EndKindLine(p: Parser, kind: string)
    requires p.line == "event: " + kind
    ensures EndLine(p) == p.(line := "", kind := kind)
  {
    assert p.line == "event" + [':'] + (" " + kind);
    IndexOfAfter("event", ':', " " + kind);
    assert p.line[..5] == "event" && p.line[6..] == " " + kind && (" " + kind)[1..] == kind;
  }

  lemma EventText(first: string, text: string, rest: string)
    ensures first + "\n" + "data: " + text + "\n\n" + rest
         == first + ("\n" + ("data: " + (text + ("\n" + ("" + ("\n" + rest))))))
  {
    assert "\n\n" + rest == "\n" + ("" + ("\n" + rest));
    Assoc(first + "\n" + "data: " + text, "\n\n", rest);
    Assoc(first + "\n" + "data: ", text, "\n\n" + rest);
    Assoc4(first, "\n", "data: ", text + ("\n\n" + rest));
  }

  lemma FeedHeader(p: Parser, kind: string, body: string)
    requires Between(p) && OneLine(kind)
    ensures Feed(p, ("event: " + kind) + ("\n" + ("data: " + body)))
         == Feed(p.(line := "data: ", kind := kind), body)
  {
    var first := "event: " + kind;
    FeedLine(p, first, "data: " + body);
    assert p.line + first == first;
    EndKindLine(p.(line := first), kind);
    FeedText(p.(kind := kind), "data: ", body);
    assert p.line + "data: " == "data: ";
  }

  lemma FeedEvent(p: Parser, kind: string, text: string, rest: string)
    requires Between(p) && OneLine(kind) && kind != "" && NoLoneCR(text)
    ensures Feed(p, Block(kind, IndentLines(text)) + rest)
         == Feed(p.(events := p.events + [Event(kind, Normalize(text))]), rest)
  {
    EventText("event: " + kind, IndentLines(text), rest);
    FeedHeader(p, kind, IndentLines(text) + ("\n" + ("" + ("\n" + rest))));
    FeedEventData(p.(kind := kind), text, rest);
  }

  lemma FeedEventData(q: Parser, text: string, rest: string)
    requires q.line == "" && q.data == "" && q.kind != "" && NoLoneCR(text)
    ensures Feed(q.(line := "data: "), IndentLines(text) + ("\n" + ("" + ("\n" + rest))))
         == Feed(q.(kind := "", events := q.events + [Event(q.kind, Normalize(text))]), rest)
  {
    assert "data: " == "data: " + "";
    FeedData(q.(line := "data: "), "", text, "" + ("\n" + rest));
    var d := Normalize(text) + "\n";
    assert q.data + ("" + Normalize(text)) + "\n" == d;
    var r := q.(data := d);
    FeedLine(r, "", rest);
    assert r.line + "" == "";
    assert d[..|d| - 1] == Normalize(text);
  }

  lemma FeedPing(p: Parser, rest: string)
    requires Between(p)
    ensures Feed(p, ": ping\n\n" + rest) == Feed(p, rest)
  {
    assert ": ping\n\n" + rest == ": ping" + ("\n" + ("" + ("\n" + rest)));
    FeedLine(p, ": ping", "" + ("\n" + rest));
    assert p.line + ": ping" == ": ping";
    FeedLine(p, "", rest);
    assert p.line + "" == "";
  }

  lemma FeedEmission(p: Parser, e: Emission, rest: string)
    requires Between(p) && Clean(e)
    ensures Feed(p, Render(e) + rest) == Feed(p.(events := p.events + Seen(e)), rest)
  {
    match e
    case Out(text) => FeedEvent(p, "out", TrimSpace(text), rest);
    case Error(text) => FeedEvent(p, "error", TrimSpace(text), rest);
    case Ping =>
      FeedPing(p, rest);
      assert p.events + Seen(e) == p.events;
    case Done =>
      PlainText("done");
      FeedEvent(p, "done", "done", rest);
  }

  /** A text without line ends is printed and read as it is. */
  lemma {:induction false} PlainText(s: string)
    requires OneLine(s)
    ensures IndentLines(s) == s && Normalize(s) == s
  {
    if s != [] {
      PlainText(s[1..]);
      assert s == [s[0]] + s[1..];
    }
  }

  lemma {:induction false} FeedAll(p: Parser, es: seq<Emission>)
    requires Between(p)
    requires forall i :: 0 <= i < |es| ==> Clean(es[i])
    ensures Feed(p, RenderAll(es)) == p.(events := p.events + Expected(es))
    decreases |es|
  {
    if es == [] {
      assert p.events + Expected(es) == p.events;
    } else {
      FeedEmission(p, es[0], RenderAll(es[1..]));
      var q := p.(events := p.events + Seen(es[0]));
      FeedAll(q, es[1..]);
      Assoc(p.events, Seen(es[0]), Expected(es[1..]));
    }
  }

  // ---------------------------------------- a payload never contains a CR

  predicate NoCR(p: Parser) {
    && '\r' !in p.line && '\r' !in p.kind && '\r' !in p.data
    && forall i :: 0 <= i < |p.events| ==> '\r' !in p.events[i].data
  }

  lemma EndLineNoCR(p: Parser)
    requires NoCR(p)
    ensures NoCR(EndLine(p))
  {
  }

  lemma {:induction false} FeedNoCR(p: Parser, s: string)
    requires NoCR(p)
    ensures NoCR(Feed(p, s))
    decreases |s|
  {
    if s != [] {
      EndLineNoCR(p);
      if s[0] == '\n' {
        FeedNoCR(EndLine(p), s[1..]);
      } else if s[0] == '\r' {
        FeedNoCR(EndLine(p), if |s| > 1 && s[1] == '\n' then s[2..] else s[1..]);
      } else {
        FeedNoCR(p.(line := p.line + [s[0]]), s[1..]);
      }
    }
  }

  /** Normalizing removes every CR exactly when each one belongs to a CR LF. */
  lemma {:induction false} NormalizeNoCR(s: string)
    ensures '\r' !in Normalize(s) <==> NoLoneCR(s)
  {
    if s != [] {
      NormalizeNoCR(s[1..]);
      assert forall i :: 0 <= i < |s[1..]| ==> s[1..][i] == s[i + 1];
      if NoLoneCR(s) {
        assert NoLoneCR(s[1..]);
      } else if NoLoneCR(s[1..]) {
        assert s[0] == '\r';
      }
    }
  }

  lemma {:induction false} ExpectedNoCR(es: seq<Emission>)
    requires forall i :: 0 <= i < |Expected(es)| ==> '\r' !in Expected(es)[i].data
    ensures forall i :: 0 <= i < |es| ==> Clean(es[i])
  {
    if es != [] {
      var head := Seen(es[0]);
      assert forall i :: 0 <= i < |Expected(es[1..])| ==> Expected(es[1..])[i] == Expected(es)[|head| + i];
      ExpectedNoCR(es[1..]);
      if es[0].Out? || es[0].Error? {
        NormalizeNoCR(TrimSpace(es[0].text));
        assert Expected(es)[0].data == Normalize(TrimSpace(es[0].text));
      }
    }
  }

  /** The round trip over whole streams: a client reads exactly the emitted
      events, in order, pings invisible and each payload trimmed with CR LF turned
      into LF, if and only if no trimmed payload has a CR without LF after it. */
  lemma RoundTrip(es: seq<Emission>)
    ensures Parse(RenderAll(es)) == Expected(es) <==> forall i :: 0 <= i < |es| ==> Clean(es[i])
  {
    var stream := RenderAll(es);
    if forall i :: 0 <= i < |es| ==> Clean(es[i]) {
      if es != [] {
        assert stream[0] == Render(es[0])[0];
        FirstByte(es[0]);
      }
      FeedAll(FRESH, es);
      assert FRESH.events + Expected(es) == Expected(es);
    }
    if Parse(stream) == Expected(es) {
      FeedNoCR(FRESH, if stream != [] && stream[0] == '\U{FEFF}' then stream[1..] else stream);
      ExpectedNoCR(es);
    }
  }

  lemma FirstByte(e: Emission)
    ensures Render(e) != [] && Render(e)[0] in "e:"
  {
  }

  /** The texts as they are after trimming, with nothing else changed. */
  function Verbatim(es: seq<Emission>): seq<Event> {
    if es == [] then [] else
      (match es[0]
       case Out(text) => [Event("out", TrimSpace(text))]
       case Error(text) => [Event("error", TrimSpace(text))]
       case _ => Seen(es[0])) + Verbatim(es[1..])
  }

  predicate WithoutCR(e: Emission) {
    (e.Out? || e.Error?) ==> '\r' !in TrimSpace(e.text)
  }

  lemma {:induction false} NormalizeIdentity(s: string)
    requires '\r' !in s
    ensures Normalize(s) == s
  {
    if s != [] {
      NormalizeIdentity(s[1..]);
      assert s == [s[0]] + s[1..];
    }
  }

  lemma {:induction false} VerbatimExpected(es: seq<Emission>)
    requires forall i :: 0 <= i < |es| ==> WithoutCR(es[i])
    ensures Verbatim(es) == Expected(es)
  {
    if es != [] {
      if es[0].Out? || es[0].Error? {
        NormalizeIdentity(TrimSpace(es[0].text));
      }
      VerbatimExpected(es[1..]);
    }
  }

  lemma {:induction false} VerbatimNoCR(es: seq<Emission>)
    requires forall i :: 0 <= i < |Verbatim(es)| ==> '\r' !in Verbatim(es)[i].data
    ensures forall i :: 0 <= i < |es| ==> WithoutCR(es[i])
  {
    if es != [] {
      var n := |Verbatim(es)| - |Verbatim(es[1..])|;
      assert forall i :: 0 <= i < |Verbatim(es[1..])| ==> Verbatim(es[1..])[i] == Verbatim(es)[n + i];
      VerbatimNoCR(es[1..]);
      if es[0].Out? || es[0].Error? {
        assert Verbatim(es)[0].data == TrimSpace(es[0].text);
      }
    }
  }

  /** The client sees every trimmed text unchanged exactly when none has a CR. */
  lemma VerbatimRoundTrip(es: seq<Emission>)
    ensures Parse(RenderAll(es)) == Verbatim(es) <==> forall i :: 0 <= i < |es| ==> WithoutCR(es[i])
  {
    var stream := RenderAll(es);
    if forall i :: 0 <= i < |es| ==> WithoutCR(es[i]) {
      RoundTrip(es);
      VerbatimExpected(es);
    }
    if Parse(stream) == Verbatim(es) {
      FeedNoCR(FRESH, if stream != [] && stream[0] == '\U{FEFF}' then stream[1..] else stream);
      VerbatimNoCR(es);
    }
  }

  lemma {:induction false} RenderAppend(es: seq<Emission>, e: Emission)
    ensures RenderAll(es + [e]) == RenderAll(es) + Render(e)
  {
    if es == [] {
      assert [e][1..] == [] && es + [e] == [e];
    } else {
      assert (es + [e])[1..] == es[1..] + [e];
      RenderAppend(es[1..], e);
      Assoc(Render(es[0]), RenderAll(es[1..]), Render(e));
    }
  }
}

/** The `/exec` request: the goroutine that runs the command and the select loop
    that streams its output, in every interleaving. */
module Exec {
  import opened Prelude
  import opened Text
  import opened Sse

  /** A FIFO channel with its history: everything sent, how much of it was
      received, and whether the sending side was closed. */
  datatype Chan = Chan(sent: seq<string>, taken: nat, closed: bool) {
    /** How many texts are buffered. */
    function Pending(): int { |sent| - taken }
  }

  /** Where the goroutine stands: inside `exec`, returned from it, and after each
      of its last three statements. */
  datatype Pc = Running | Returned | DoneSent | OutClosed | Finished

  datatype Status = Looping | Leaving | Ended

  datatype State = State(
    pc: Pc, out: Chan, err: Chan, done: bool, cancelled: bool, status: Status, emitted: seq<Emission>)

  const INIT := State(Running, Chan([], 0, false), Chan([], 0, false), false, false, Looping, [])

  datatype Label =
    | WriteChunk(text: string)   // chWriter.Write, from the command's stdout or stderr
    | FailExec(text: string)     // a message on the error channel, then return
    | ReturnExec
    | SendDone | CloseOut | CloseErr
    | Cancel                     // the client goes away
    | TakeDone | TakeErr | TakeOut | TakeCancel | Tick
    | Deferred

  function Send(ch: Chan, text: string): Chan {
    ch.(sent := ch.sent + [text])
  }

  /** Receiving: the oldest buffered text, or the zero value once closed. */
  function Receive(ch: Chan): Option<(string, Chan)> {
    if ch.taken < |ch.sent| then Some((ch.sent[ch.taken], ch.(taken := ch.taken + 1)))
    else if ch.closed then Some(("", ch)) else None
  }

  function Step(s: State, l: Label): Option<State> {
    match l
    case WriteChunk(text) =>
      if s.pc == Running then Some(s.(out := Send(s.out, text))) else None
    case FailExec(text) =>
      if s.pc == Running && s.err.Pending() < 1 then Some(s.(err := Send(s.err, text), pc := Returned)) else None
    case ReturnExec => if s.pc == Running then Some(s.(pc := Returned)) else None
    case SendDone => if s.pc == Returned && !s.done then Some(s.(done := true, pc := DoneSent)) else None
    case CloseOut =>
      if s.pc == DoneSent then Some(s.(out := s.out.(closed := true), pc := OutClosed)) else None
    case CloseErr =>
      if s.pc == OutClosed then Some(s.(err := s.err.(closed := true), pc := Finished)) else None
    case Cancel => Some(s.(cancelled := true))
    case TakeDone =>
      if s.status == Looping && s.done then Some(s.(done := false, status := Leaving)) else None
    case TakeErr =>
      if s.status != Looping then None else
      (match Receive(s.err)
       case None => None
       case Some((text, ch)) => Some(s.(err := ch, emitted := s.emitted + [Error(text)])))
    case TakeOut =>
      if s.status != Looping then None else
      (match Receive(s.out)
       case None => None
       case Some((text, ch)) => Some(s.(out := ch, emitted := s.emitted + [Out(text)])))
    case TakeCancel =>
      if s.status == Looping && s.cancelled then Some(s.(status := Leaving)) else None
    case Tick =>
      if s.status == Looping then Some(s.(emitted := s.emitted + [Ping])) else None
    case Deferred =>
      if s.status != Leaving then None
      else if s.cancelled then Some(s.(status := Ended))
      else Some(s.(status := Ended, emitted := s.emitted + [Done]))
  }

  function After(ls: seq<Label>): Option<State> {
    if ls == [] then Some(INIT) else
      match After(ls[..|ls| - 1])
      case None => None
      case Some(s) => Step(s, ls[|ls| - 1])
  }

  predicate IsRun(ls: seq<Label>) { After(ls).Some? }

  function Outs(es: seq<Emission>): seq<string> {
    if es == [] then [] else
      var e, prev := es[|es| - 1], Outs(es[..|es| - 1]);
      if e.Out? then prev + [e.text] else prev
  }

  function Errs(es: seq<Emission>): seq<string> {
    if es == [] then [] else
      var e, prev := es[|es| - 1], Errs(es[..|es| - 1]);
      if e.Error? then prev + [e.text] else prev
  }

  /** `got` is a prefix of what was sent; blank texts follow only if that prefix
      is everything and the channel is closed. */
  predicate Delivered(got: seq<string>, ch: Chan) {
    && ch.taken <= |ch.sent| && ch.taken <= |got|
    && (forall i :: 0 <= i < ch.taken ==> got[i] == ch.sent[i])
    && (forall i :: ch.taken <= i < |got| ==> got[i] == "")
    && (ch.taken < |got| ==> ch.closed && ch.taken == |ch.sent|)
  }

  predicate Control(s: State) {
    && |s.err.sent| <= 1 && (s.pc == Running ==> s.err.sent == [])
    && (s.out.closed <==> s.pc in {OutClosed, Finished})
    && (s.err.closed <==> s.pc == Finished)
    && (s.done ==> s.pc !in {Running, Returned})
    && (s.status == Leaving && s.pc in {Running, Returned} ==> s.cancelled)
    && (forall i :: 0 <= i < |s.emitted| && s.emitted[i].Done? ==>
          i == |s.emitted| - 1 && s.status == Ended && s.pc !in {Running, Returned})
  }

  predicate Channels(s: State) {
    Delivered(Outs(s.emitted), s.out) && Delivered(Errs(s.emitted), s.err)
  }

  predicate Inv(s: State) { Control(s) && Channels(s) }

  lemma OutsAppend(es: seq<Emission>, e: Emission)
    ensures Outs(es + [e]) == if e.Out? then Outs(es) + [e.text] else Outs(es)
    ensures Errs(es + [e]) == if e.Error? then Errs(es) + [e.text] else Errs(es)
  {
    assert (es + [e])[..|es|] == es;
  }

  lemma SendDelivered(got: seq<string>, ch: Chan, text: string)
    requires Delivered(got, ch) && !ch.closed
    ensures Delivered(got, Send(ch, text))
  {
  }

  lemma ReceiveDelivered(got: seq<string>, ch: Chan)
    requires Delivered(got, ch) && Receive(ch).Some?
    ensures Delivered(got + [Receive(ch).value.0], Receive(ch).value.1)
  {
  }

  lemma StepControl(s: State, l: Label, s': State)
    requires Control(s) && Step(s, l) == Some(s')
    ensures Control(s')
  {
  }

  lemma TakeOutInv(s: State, s': State)
    requires Channels(s) && Step(s, TakeOut) == Some(s')
    ensures Channels(s')
  {
    var text := Receive(s.out).value.0;
    ReceiveDelivered(Outs(s.emitted), s.out);
    OutsAppend(s.emitted, Out(text));
    assert s'.emitted == s.emitted + [Out(text)];
  }

  lemma TakeErrInv(s: State, s': State)
    requires Channels(s) && Step(s, TakeErr) == Some(s')
    ensures Channels(s')
  {
    var text := Receive(s.err).value.0;
    ReceiveDelivered(Errs(s.emitted), s.err);
    OutsAppend(s.emitted, Error(text));
    assert s'.emitted == s.emitted + [Error(text)];
  }

  lemma OtherEmissions(s: State, l: Label, s': State)
    requires Step(s, l) == Some(s') && !l.TakeOut? && !l.TakeErr?
    ensures Outs(s'.emitted) == Outs(s.emitted) && Errs(s'.emitted) == Errs(s.emitted)
  {
    if l.Tick? { OutsAppend(s.emitted, Ping); }
    if l.Deferred? { OutsAppend(s.emitted, Done); }
  }

  lemma OtherChannels(s: State, l: Label, s': State, outs: seq<string>, errs: seq<string>)
    requires Control(s) && Step(s, l) == Some(s') && !l.TakeOut? && !l.TakeErr?
    requires Delivered(outs, s.out) && Delivered(errs, s.err)
    ensures Delivered(outs, s'.out) && Delivered(errs, s'.err)
  {
    if l.WriteChunk? { SendDelivered(outs, s.out, l.text); }
    if l.FailExec? { SendDelivered(errs, s.err, l.text); }
  }

  lemma StepChannels(s: State, l: Label, s': State)
    requires Inv(s) && Step(s, l) == Some(s')
    ensures Channels(s')
  {
    match l
    case TakeOut => TakeOutInv(s, s');
    case TakeErr => TakeErrInv(s, s');
    case _ =>
      OtherEmissions(s, l, s');
      OtherChannels(s, l, s', Outs(s.emitted), Errs(s.emitted));
  }

  lemma {:induction false} RunInv(ls: seq<Label>)
    requires IsRun(ls)
    ensures Inv(After(ls).value)
  {
    if ls != [] {
      RunInv(ls[..|ls| - 1]);
      StepControl(After(ls[..|ls| - 1]).value, ls[|ls| - 1], After(ls).value);
      StepChannels(After(ls[..|ls| - 1]).value, ls[|ls| - 1], After(ls).value);
    }
  }

  /** In every run: the output taken by the loop is a prefix of the chunks
      written, followed by blanks only once everything was taken and the channel is
      closed; the same holds for the error channel, which carries at most one
      message; and the done event is the last emission and is only written after
      the command returned. */
  lemma StreamSafety(ls: seq<Label>)
    requires IsRun(ls)
    ensures var s := After(ls).value;
            && Delivered(Outs(s.emitted), s.out)
            && Delivered(Errs(s.emitted), s.err) && |s.err.sent| <= 1
            && (forall i :: 0 <= i < |s.emitted| && s.emitted[i].Done? ==>
                  i == |s.emitted| - 1 && s.status == Ended && s.pc !in {Running, Returned})
  {
    RunInv(ls);
  }

  /** Once the handler has returned nothing more is written; and the goroutine is
      never blocked on its error or done channel. */
  lemma NoFurtherEmission(ls: seq<Label>, l: Label)
    requires IsRun(ls + [l]) && IsRun(ls)
    ensures var s, s' := After(ls).value, After(ls + [l]).value;
            && (s.status == Ended ==> s'.emitted == s.emitted)
            && (s.pc == Running ==> s.err.Pending() < 1)
            && (s.pc == Returned ==> !s.done)
  {
    RunInv(ls);
    ExtendRun(ls, l);
  }

  lemma ExtendRun(ls: seq<Label>, l: Label)
    requires IsRun(ls)
    ensures After(ls + [l]) == Step(After(ls).value, l)
  {
    assert (ls + [l])[..|ls|] == ls;
  }

  lemma {:induction false} PrefixRun(ls: seq<Label>, k: nat)
    requires IsRun(ls) && k <= |ls|
    ensures IsRun(ls[..k])
    decreases |ls|
  {
    if k == |ls| {
      assert ls[..k] == ls;
    } else {
      PrefixRun(ls[..|ls| - 1], k);
      assert ls[..|ls| - 1][..k] == ls[..k];
    }
  }

  predicate WritesAfter(ls: seq<Label>, k: nat) {
    exists j :: k <= j < |ls| && ls[j].WriteChunk?
  }

  lemma LeftStep(s: State, l: Label, s': State)
    requires Step(s, l) == Some(s') && s.status != Looping
    ensures s'.status != Looping && s'.out.taken == s.out.taken
    ensures s'.out.sent == s.out.sent + if l.WriteChunk? then [l.text] else []
    ensures s.pc != Running ==> s'.pc != Running && !l.WriteChunk?
  {
  }

  /** Once the loop was left nothing is taken from the queue any more. */
  lemma {:induction false} AfterLeaving(ls: seq<Label>, k: nat)
    requires IsRun(ls) && k <= |ls| && IsRun(ls[..k]) && After(ls[..k]).value.status != Looping
    ensures var at, end := After(ls[..k]).value, After(ls).value;
            && end.status != Looping && end.out.taken == at.out.taken && |at.out.sent| <= |end.out.sent|
            && (|at.out.sent| == |end.out.sent| <==> !WritesAfter(ls, k))
            && (at.pc != Running ==> end.pc != Running && !WritesAfter(ls, k))
    decreases |ls|
  {
    if k == |ls| {
      assert ls[..k] == ls;
    } else {
      var prev := ls[..|ls| - 1];
      assert prev[..k] == ls[..k];
      AfterLeaving(prev, k);
      LeftStep(After(prev).value, ls[|ls| - 1], After(ls).value);
      WritesExtend(ls, k);
    }
  }

  lemma WritesExtend(ls: seq<Label>, k: nat)
    requires k < |ls|
    ensures WritesAfter(ls, k) <==> WritesAfter(ls[..|ls| - 1], k) || ls[|ls| - 1].WriteChunk?
  {
    var prev := ls[..|ls| - 1];
    assert forall j :: 0 <= j < |prev| ==> prev[j] == ls[j];
  }

  lemma LeavingStep(s: State, l: Label, s': State)
    requires Control(s) && Step(s, l) == Some(s') && l in {TakeDone, TakeCancel}
    ensures s'.status == Leaving && s'.out == s.out && s'.pc == s.pc && (l == TakeDone ==> s.pc != Running)
  {
  }

  /** When output is lost, decided where the loop is left: by `done` nothing is lost
      exactly when the queue is empty at that moment; by cancellation exactly when
      it is empty and the command writes nothing afterwards. */
  lemma CompleteOutput(ls: seq<Label>, k: nat)
    requires IsRun(ls) && k < |ls| && ls[k] in {TakeDone, TakeCancel}
    ensures IsRun(ls[..k])
    ensures var at, end := After(ls[..k]).value, After(ls).value;
            end.out.sent <= Outs(end.emitted) <==>
            at.out.Pending() == 0 && (ls[k] == TakeCancel ==> !WritesAfter(ls, k + 1))
  {
    PrefixRun(ls, k);
    PrefixRun(ls, k + 1);
    assert ls[..k + 1][..k] == ls[..k];
    RunInv(ls[..k]);
    LeavingStep(After(ls[..k]).value, ls[k], After(ls[..k + 1]).value);
    AfterLeaving(ls, k + 1);
    RunInv(ls);
    PrefixLength(Outs(After(ls).value.emitted), After(ls).value.out);
  }

  lemma PrefixLength(got: seq<string>, ch: Chan)
    requires Delivered(got, ch)
    ensures ch.sent <= got <==> |ch.sent| == ch.taken
  {
  }

  /** The select may prefer `done` to waiting output, so a finished stream can lack
      chunks that were written. */
  lemma OutputCanBeLost()
    ensures var ls := [WriteChunk("x"), ReturnExec, SendDone, TakeDone, Deferred];
            && IsRun(ls) && After(ls).value.emitted == [Done]
            && After(ls).value.out.sent == ["x"]
  {
    var l1 := [WriteChunk("x")];
    var l2 := l1 + [ReturnExec];
    var l3 := l2 + [SendDone];
    var l4 := l3 + [TakeDone];
    var l5 := l4 + [Deferred];
    assert l1[..0] == [] && l2[..1] == l1 && l3[..2] == l2 && l4[..3] == l3 && l5[..4] == l4;
    assert After(l1).Some? && After(l2).Some? && After(l3).Some? && After(l4).Some?;
    assert l5 == [WriteChunk("x"), ReturnExec, SendDone, TakeDone, Deferred];
  }

  // ------------------------------------------- the run, told by its steps alone

  /** The texts that the command wrote, and the message on the error channel. */
  function Chunks(ls: seq<Label>): seq<string> {
    if ls == [] then [] else
      var l, prev := ls[|ls| - 1], Chunks(ls[..|ls| - 1]);
      if l.WriteChunk? then prev + [l.text] else prev
  }

  function Failures(ls: seq<Label>): seq<string> {
    if ls == [] then [] else
      var l, prev := ls[|ls| - 1], Failures(ls[..|ls| - 1]);
      if l.FailExec? then prev + [l.text] else prev
  }

  function Count(ls: seq<Label>, l: Label): nat {
    if ls == [] then 0 else Count(ls[..|ls| - 1], l) + if ls[|ls| - 1] == l then 1 else 0
  }

  function Nth(texts: seq<string>, k: nat): string { if k < |texts| then texts[k] else "" }

  predicate HasReturned(ls: seq<Label>) {
    exists i :: 0 <= i < |ls| && (ls[i].FailExec? || ls[i].ReturnExec?)
  }

  predicate HasLeft(ls: seq<Label>) { TakeDone in ls || TakeCancel in ls }

  /** What each step of a run writes: the k-th receive from a channel gives its k-th
      text, or a blank after the last one, and the deferred function writes done unless
      the client is gone. */
  function Emissions(ls: seq<Label>): seq<Emission> {
    if ls == [] then [] else
      var before := ls[..|ls| - 1];
      Emissions(before) +
      match ls[|ls| - 1]
      case TakeOut => [Out(Nth(Chunks(before), Count(before, TakeOut)))]
      case TakeErr => [Error(Nth(Failures(before), Count(before, TakeErr)))]
      case Tick => [Ping]
      case Deferred => if Cancel in before then [] else [Done]
      case _ => []
  }

  /** When a step can come next. The goroutine goes through its statements in order; a
      receive needs a text that was not taken yet or a closed channel. */
  predicate Allowed(ls: seq<Label>, l: Label) {
    match l
    case WriteChunk(_) => !HasReturned(ls)
    case FailExec(_) => !HasReturned(ls)
    case ReturnExec => !HasReturned(ls)
    case SendDone => HasReturned(ls) && SendDone !in ls
    case CloseOut => SendDone in ls && CloseOut !in ls
    case CloseErr => CloseOut in ls && CloseErr !in ls
    case Cancel => true
    case TakeDone => !HasLeft(ls) && SendDone in ls
    case TakeCancel => !HasLeft(ls) && Cancel in ls
    case TakeErr => !HasLeft(ls) && (Count(ls, TakeErr) < |Failures(ls)| || CloseErr in ls)
    case TakeOut => !HasLeft(ls) && (Count(ls, TakeOut) < |Chunks(ls)| || CloseOut in ls)
    case Tick => !HasLeft(ls)
    case Deferred => HasLeft(ls) && Deferred !in ls
  }

  ghost predicate Flow(ls: seq<Label>, s: State) {
    && (s.pc == Running <==> !HasReturned(ls))
    && (s.pc in {DoneSent, OutClosed, Finished} <==> SendDone in ls)
    && (s.pc in {OutClosed, Finished} <==> CloseOut in ls)
    && (s.pc == Finished <==> CloseErr in ls)
    && (s.done <==> SendDone in ls && TakeDone !in ls)
    && (TakeDone in ls ==> SendDone in ls)
    && (s.cancelled <==> Cancel in ls)
    && (s.status == Looping <==> !HasLeft(ls))
    && (s.status == Ended <==> Deferred in ls)
  }

  predicate QueueIs(ch: Chan, texts: seq<string>, takes: nat) {
    && ch.sent == texts && ch.taken <= |texts| && ch.taken <= takes
    && (ch.taken < takes ==> ch.closed && ch.taken == |texts|)
  }

  ghost predicate Queues(ls: seq<Label>, s: State) {
    && QueueIs(s.out, Chunks(ls), Count(ls, TakeOut))
    && QueueIs(s.err, Failures(ls), Count(ls, TakeErr))
    && (s.out.closed <==> CloseOut in ls) && (s.err.closed <==> CloseErr in ls)
    && |Failures(ls)| <= (if HasReturned(ls) then 1 else 0)
    && s.emitted == Emissions(ls)
  }

  lemma ReturnedNext(ls: seq<Label>, l: Label)
    ensures HasReturned(ls + [l]) <==> HasReturned(ls) || l.FailExec? || l.ReturnExec?
  {
    var all := ls + [l];
    assert forall i :: 0 <= i < |ls| ==> all[i] == ls[i];
    assert all[|ls|] == l;
  }

  lemma FlowNext(ls: seq<Label>, l: Label, s: State, s': State)
    requires Flow(ls, s) && Step(s, l) == Some(s')
    ensures Flow(ls + [l], s')
  {
    ReturnedNext(ls, l);
    assert forall x :: x in ls + [l] <==> x in ls || x == l;
  }

  lemma CountsNext(ls: seq<Label>, l: Label)
    ensures Chunks(ls + [l]) == if l.WriteChunk? then Chunks(ls) + [l.text] else Chunks(ls)
    ensures Failures(ls + [l]) == if l.FailExec? then Failures(ls) + [l.text] else Failures(ls)
    ensures forall x :: Count(ls + [l], x) == Count(ls, x) + if l == x then 1 else 0
  {
    assert (ls + [l])[..|ls|] == ls;
  }

  lemma EmissionsNext(ls: seq<Label>, l: Label, s: State, s': State)
    requires Flow(ls, s) && Queues(ls, s) && Step(s, l) == Some(s')
    ensures s'.emitted == Emissions(ls + [l])
  {
    assert (ls + [l])[..|ls|] == ls;
  }

  lemma QueuesNext(ls: seq<Label>, l: Label, s: State, s': State)
    requires Flow(ls, s) && Queues(ls, s) && Step(s, l) == Some(s')
    ensures Queues(ls + [l], s')
  {
    EmissionsNext(ls, l, s, s');
    CountsNext(ls, l);
    ReturnedNext(ls, l);
    assert forall x :: x in ls + [l] <==> x in ls || x == l;
  }

  lemma {:induction false} ToldBySteps(ls: seq<Label>)
    requires IsRun(ls)
    ensures Flow(ls, After(ls).value) && Queues(ls, After(ls).value)
  {
    if ls != [] {
      var prev, l := ls[..|ls| - 1], ls[|ls| - 1];
      ToldBySteps(prev);
      assert ls == prev + [l];
      FlowNext(prev, l, After(prev).value, After(ls).value);
      QueuesNext(prev, l, After(prev).value, After(ls).value);
    }
  }

  /** In every run the response is exactly what its steps write; the queues hold what
      the command wrote; and a step can come next exactly when it is allowed. */
  lemma RunExactly(ls: seq<Label>, l: Label)
    requires IsRun(ls)
    ensures After(ls).value.emitted == Emissions(ls)
    ensures After(ls).value.out.sent == Chunks(ls) && After(ls).value.err.sent == Failures(ls)
    ensures IsRun(ls + [l]) <==> Allowed(ls, l)
  {
    ToldBySteps(ls);
    ExtendRun(ls, l);
    StepAllowed(ls, l, After(ls).value);
  }

  lemma StepAllowed(ls: seq<Label>, l: Label, s: State)
    requires Flow(ls, s) && Queues(ls, s)
    ensures Step(s, l).Some? <==> Allowed(ls, l)
  {
  }

  /** The response tells the client that the command is done exactly when the deferred
      function came before any cancellation. */
  predicate SaysDone(ls: seq<Label>) {
    exists k :: 0 <= k < |ls| && ls[k] == Deferred && Cancel !in ls[..k]
  }

  lemma SaysDoneNext(ls: seq<Label>, l: Label)
    ensures SaysDone(ls + [l]) <==> SaysDone(ls) || (l == Deferred && Cancel !in ls)
  {
    var all := ls + [l];
    assert all[..|ls|] == ls && all[|ls|] == l;
    assert forall k :: 0 <= k < |ls| ==> all[k] == ls[k] && all[..k] == ls[..k];
  }

  lemma EmissionsEnd(ls: seq<Label>, l: Label)
    ensures Done in Emissions(ls + [l]) <==> Done in Emissions(ls) || (l == Deferred && Cancel !in ls)
  {
    assert (ls + [l])[..|ls|] == ls;
  }

  lemma {:induction false} DoneExactly(ls: seq<Label>)
    ensures Done in Emissions(ls) <==> SaysDone(ls)
  {
    if ls != [] {
      var prev, l := ls[..|ls| - 1], ls[|ls| - 1];
      DoneExactly(prev);
      assert ls == prev + [l];
      SaysDoneNext(prev, l);
      EmissionsEnd(prev, l);
    }
  }

  /** The data of a client's events of one kind. */
  function DataOf(evs: seq<Event>, kind: string): seq<string> {
    if evs == [] then [] else
      (if evs[0].kind == kind then [evs[0].data] else []) + DataOf(evs[1..], kind)
  }

  function Shown(texts: seq<string>): seq<string> {
    seq(|texts|, i requires 0 <= i < |texts| => Normalize(TrimSpace(texts[i])))
  }

  lemma {:induction false} DataOfAppend(a: seq<Event>, b: seq<Event>, kind: string)
    ensures DataOf(a + b, kind) == DataOf(a, kind) + DataOf(b, kind)
  {
    if a == [] {
      assert a + b == b;
    } else {
      assert (a + b)[1..] == a[1..] + b;
      DataOfAppend(a[1..], b, kind);
    }
  }

  lemma {:induction false} ExpectedAppend(es: seq<Emission>, e: Emission)
    ensures Expected(es + [e]) == Expected(es) + Seen(e)
  {
    if es == [] {
      assert es + [e] == [e] && [e][1..] == [];
    } else {
      assert (es + [e])[1..] == es[1..] + [e];
      ExpectedAppend(es[1..], e);
    }
  }

  lemma ShownAppend(texts: seq<string>, text: string)
    ensures Shown(texts + [text]) == Shown(texts) + [Normalize(TrimSpace(text))]
  {
  }

  lemma SeenData(e: Emission)
    ensures DataOf(Seen(e), "out") == if e.Out? then [Normalize(TrimSpace(e.text))] else []
    ensures DataOf(Seen(e), "error") == if e.Error? then [Normalize(TrimSpace(e.text))] else []
  {
    assert Seen(e) != [] ==> Seen(e)[1..] == [];
  }

  lemma {:induction false} ExpectedData(es: seq<Emission>)
    ensures DataOf(Expected(es), "out") == Shown(Outs(es))
    ensures DataOf(Expected(es), "error") == Shown(Errs(es))
  {
    if es != [] {
      var prev, e := es[..|es| - 1], es[|es| - 1];
      assert es == prev + [e];
      ExpectedData(prev);
      ExpectedAppend(prev, e);
      DataOfAppend(Expected(prev), Seen(e), "out");
      DataOfAppend(Expected(prev), Seen(e), "error");
      SeenData(e);
      match e
      case Out(text) => ShownAppend(Outs(prev), text);
      case Error(text) => ShownAppend(Errs(prev), text);
      case _ =>
    }
  }

  predicate CleanTexts(texts: seq<string>) {
    forall i :: 0 <= i < |texts| ==> NoLoneCR(TrimSpace(texts[i]))
  }

  /** What a client reads of a channel: the texts taken from it, trimmed and with
      CR LF turned into LF; blanks follow only when that is everything. */
  predicate ReadsFrom(got: seq<string>, ch: Chan) {
    && ch.taken <= |ch.sent| && ch.taken <= |got|
    && (forall i :: 0 <= i < ch.taken ==> got[i] == Normalize(TrimSpace(ch.sent[i])))
    && (forall i :: ch.taken <= i < |got| ==> got[i] == "")
    && (ch.taken < |got| ==> ch.closed && ch.taken == |ch.sent|)
  }

  /** End to end: whatever the schedule, a client that parses the response reads
      the chunks written so far, in order, up to a point; the one error message, if
      it was taken, before any blank one; and one done event, as the last, exactly when
      the handler returned before the client went away. */
  lemma ClientReadsPrefix(ls: seq<Label>)
    requires IsRun(ls)
    requires CleanTexts(After(ls).value.out.sent) && CleanTexts(After(ls).value.err.sent)
    ensures var s := After(ls).value;
            && s.out.sent == Chunks(ls) && s.err.sent == Failures(ls) && |s.err.sent| <= 1
            && ClientReads(Parse(RenderAll(s.emitted)), s, SaysDone(ls))
  {
    RunInv(ls);
    ToldBySteps(ls);
    DoneExactly(ls);
    ParsedIsRead(After(ls).value);
  }

  predicate ClientReads(evs: seq<Event>, s: State, says: bool) {
    && ReadsFrom(DataOf(evs, "out"), s.out) && ReadsFrom(DataOf(evs, "error"), s.err)
    && (forall i :: 0 <= i < |evs| && evs[i].kind == "done" ==> i == |evs| - 1 && s.status == Ended)
    && (forall i :: 0 <= i < |evs| ==> evs[i].kind in {"out", "error", "done"})
    && (evs != [] && evs[|evs| - 1].kind == "done" <==> says)
  }

  lemma ParsedIsRead(s: State)
    requires Inv(s) && CleanTexts(s.out.sent) && CleanTexts(s.err.sent)
    ensures ClientReads(Parse(RenderAll(s.emitted)), s, Done in s.emitted)
  {
    CleanEmissions(s);
    RoundTrip(s.emitted);
    ExpectedData(s.emitted);
    ShownDelivered(Outs(s.emitted), s.out);
    ShownDelivered(Errs(s.emitted), s.err);
    DoneIsLast(s);
  }

  lemma {:induction false} ExpectedKinds(es: seq<Emission>)
    ensures forall i :: 0 <= i < |Expected(es)| ==> Expected(es)[i].kind in {"out", "error", "done"}
    ensures Done !in es ==> forall i :: 0 <= i < |Expected(es)| ==> Expected(es)[i].kind in {"out", "error"}
  {
    if es != [] {
      ExpectedKinds(es[1..]);
      assert es[0] in es;
    }
  }

  lemma DoneIsLast(s: State)
    requires Control(s)
    ensures var evs := Expected(s.emitted);
            && (forall i :: 0 <= i < |evs| ==> evs[i].kind in {"out", "error", "done"})
            && (forall i :: 0 <= i < |evs| && evs[i].kind == "done" ==> i == |evs| - 1 && s.status == Ended)
            && (evs != [] && evs[|evs| - 1].kind == "done" <==> Done in s.emitted)
  {
    ExpectedKinds(s.emitted);
    if Done in s.emitted {
      var es, n := s.emitted, |s.emitted| - 1;
      assert es == es[..n] + [Done];
      ExpectedAppend(es[..n], Done);
      assert forall i :: 0 <= i < n ==> es[..n][i] == es[i];
      ExpectedKinds(es[..n]);
    }
  }

  lemma ShownDelivered(got: seq<string>, ch: Chan)
    requires Delivered(got, ch)
    ensures |Shown(got)| == |got|
    ensures forall i :: 0 <= i < ch.taken ==> Shown(got)[i] == Normalize(TrimSpace(ch.sent[i]))
    ensures forall i :: ch.taken <= i < |got| ==> Shown(got)[i] == ""
    ensures ReadsFrom(Shown(got), ch)
  {
  }

  lemma {:induction false} EmissionTexts(es: seq<Emission>, i: nat)
    requires i < |es|
    ensures es[i].Out? ==> es[i].text in Outs(es)
    ensures es[i].Error? ==> es[i].text in Errs(es)
  {
    if i < |es| - 1 {
      EmissionTexts(es[..|es| - 1], i);
    }
  }

  lemma DeliveredTexts(got: seq<string>, ch: Chan, text: string)
    requires Delivered(got, ch) && CleanTexts(ch.sent) && text in got
    ensures NoLoneCR(TrimSpace(text))
  {
    var i :| 0 <= i < |got| && got[i] == text;
    assert i < ch.taken || text == "";
  }

  lemma CleanEmissions(s: State)
    requires Inv(s) && CleanTexts(s.out.sent) && CleanTexts(s.err.sent)
    ensures forall i :: 0 <= i < |s.emitted| ==> Clean(s.emitted[i])
  {
    forall i | 0 <= i < |s.emitted| ensures Clean(s.emitted[i]) {
      EmissionTexts(s.emitted, i);
      if s.emitted[i].Out? { DeliveredTexts(Outs(s.emitted), s.out, s.emitted[i].text); }
      if s.emitted[i].Error? { DeliveredTexts(Errs(s.emitted), s.err, s.emitted[i].text); }
    }
  }

  // ---------------------------------------------------------------- the handler

  /** The choices of a schedule that can be made, in order, from `s`. */
  function Possible(s: State, schedule: seq<Label>): seq<Label>
    decreases |schedule|
  {
    if schedule == [] then []
    else if Step(s, schedule[0]).Some? then
      [schedule[0]] + Possible(Step(s, schedule[0]).value, schedule[1..])
    else Possible(s, schedule[1..])
  }

  function Made(s: State, l: Label): seq<Label> { if Step(s, l).Some? then [l] else [] }

  function Next(s: State, l: Label): State { if Step(s, l).Some? then Step(s, l).value else s }

  /** Of a schedule that is a run nothing is passed over. */
  lemma {:induction false} PossibleRun(ls: seq<Label>, s: State, rest: seq<Label>)
    requires After(ls) == Some(s) && IsRun(ls + rest)
    ensures Possible(s, rest) == rest
    decreases |rest|
  {
    if rest != [] {
      assert (ls + rest)[..|ls| + 1] == ls + [rest[0]];
      assert ls + [rest[0]] + rest[1..] == ls + rest;
      PrefixRun(ls + rest, |ls| + 1);
      ExtendRun(ls, rest[0]);
      PossibleRun(ls + [rest[0]], Step(s, rest[0]).value, rest[1..]);
    }
  }

  lemma WholeSchedule(schedule: seq<Label>)
    ensures IsRun(schedule) ==> Possible(INIT, schedule) == schedule
  {
    if IsRun(schedule) {
      assert [] + schedule == schedule;
      PossibleRun([], INIT, schedule);
    }
  }

  lemma PossibleAt(run: seq<Label>, s: State, schedule: seq<Label>, i: nat)
    requires i < |schedule|
    ensures run + Possible(s, schedule[i..])
         == run + Made(s, schedule[i]) + Possible(Next(s, schedule[i]), schedule[i + 1..])
  {
    var rest := schedule[i + 1..];
    assert schedule[i..][0] == schedule[i] && schedule[i..][1..] == rest;
    assert Possible(s, schedule[i..]) == Made(s, schedule[i]) + Possible(Next(s, schedule[i]), rest);
    Assoc(run, Made(s, schedule[i]), Possible(Next(s, schedule[i]), rest));
  }

  lemma BlockText(body: string, kind: string, data: string)
    ensures body + ("event: " + kind + "\n") + ("data: " + data + "\n\n") == body + Block(kind, data)
  {
    var header := "event: " + kind + "\n";
    Assoc(header, "data: ", data);
    Assoc(header, "data: " + data, "\n\n");
    Assoc(body, header, "data: " + data + "\n\n");
  }

  /** One `/exec` request. `st` holds the channels, the goroutine and the history of
      what was emitted; `body` is the response as written. */
  class Handler {
    var st: State
    var body: string
    ghost var run: seq<Label>

    ghost predicate Valid() reads this { After(run) == Some(st) && body == RenderAll(st.emitted) }

    constructor ()
      ensures Valid() && st == INIT && run == []
    {
      st, body, run := INIT, "", [];
    }

    method Emit(kind: string, data: string)
      modifies this`body
      ensures body == old(body) + Block(kind, data)
    {
      BlockText(body, kind, data);
      body := body + ("event: " + kind + "\n");
      body := body + ("data: " + data + "\n\n");
    }

    /** A step of the goroutine or of the client. */
    method Outside(l: Label)
      requires Valid() && l !in {TakeDone, TakeErr, TakeOut, TakeCancel, Tick, Deferred}
      modifies this
      ensures Valid() && st == Next(old(st), l) && run == old(run) + Made(old(st), l)
    {
      if Step(st, l).Some? {
        ExtendRun(run, l);
        st, run := Step(st, l).value, run + [l];
      }
    }

    method OnError()
      requires Valid()
      modifies this
      ensures Valid() && st == Next(old(st), TakeErr) && run == old(run) + Made(old(st), TakeErr)
    {
      if st.status != Looping || Receive(st.err) == None { return; }
      ExtendRun(run, TakeErr);
      var (err, rest) := Receive(st.err).value;
      RenderAppend(st.emitted, Error(err));
      st, run := st.(err := rest, emitted := st.emitted + [Error(err)]), run + [TakeErr];
      Emit("error", EncodeSSE(err));
    }

    method OnOutput()
      requires Valid()
      modifies this
      ensures Valid() && st == Next(old(st), TakeOut) && run == old(run) + Made(old(st), TakeOut)
    {
      if st.status != Looping || Receive(st.out) == None { return; }
      ExtendRun(run, TakeOut);
      var (out, rest) := Receive(st.out).value;
      RenderAppend(st.emitted, Out(out));
      st, run := st.(out := rest, emitted := st.emitted + [Out(out)]), run + [TakeOut];
      Emit("out", EncodeSSE(out));
    }

    method OnTick()
      requires Valid()
      modifies this
      ensures Valid() && st == Next(old(st), Tick) && run == old(run) + Made(old(st), Tick)
    {
      if st.status != Looping { return; }
      ExtendRun(run, Tick);
      RenderAppend(st.emitted, Ping);
      st, run := st.(emitted := st.emitted + [Ping]), run + [Tick];
      body := body + ": ping\n\n";
    }

    /** Leaving the loop by `done` or by cancellation writes nothing. */
    method OnLeave(l: Label)
      requires Valid() && l in {TakeDone, TakeCancel}
      modifies this
      ensures Valid() && st == Next(old(st), l) && run == old(run) + Made(old(st), l)
    {
      if st.status != Looping || !(if l == TakeDone then st.done else st.cancelled) { return; }
      ExtendRun(run, l);
      st, run := st.(status := Leaving, done := if l == TakeDone then false else st.done), run + [l];
    }

    method OnReturn()
      requires Valid()
      modifies this
      ensures Valid() && st == Next(old(st), Deferred) && run == old(run) + Made(old(st), Deferred)
    {
      if st.status != Leaving { return; }
      ExtendRun(run, Deferred);
      run := run + [Deferred];
      st := st.(status := Ended);
      if !st.cancelled {
        RenderAppend(st.emitted, Done);
        st := st.(emitted := st.emitted + [Done]);
        Emit("done", "done");
        assert Block("done", "done") == Render(Done);
      }
    }

    method React(l: Label)
      requires Valid()
      modifies this
      ensures Valid() && st == Next(old(st), l) && run == old(run) + Made(old(st), l)
    {
      match l
      case TakeErr => OnError();
      case TakeOut => OnOutput();
      case Tick => OnTick();
      case TakeDone => OnLeave(l);
      case TakeCancel => OnLeave(l);
      case Deferred => OnReturn();
      case _ => Outside(l);
    }
  }

  /** The handler under a schedule that decides who moves next and which ready case
      the select takes; a choice that is not possible then is passed over. The
      response is the rendering of exactly the run that the schedule induces. */
  method Handle(schedule: seq<Label>) returns (body: string, st: State)
    ensures After(Possible(INIT, schedule)) == Some(st) && body == RenderAll(st.emitted)
    ensures body == RenderAll(Emissions(Possible(INIT, schedule)))
    ensures IsRun(schedule) ==> body == RenderAll(Emissions(schedule))
  {
    var h := new Handler();
    for i := 0 to |schedule|
      invariant h.Valid() && fresh(h) && Possible(INIT, schedule) == h.run + Possible(h.st, schedule[i..])
    {
      PossibleAt(h.run, h.st, schedule, i);
      h.React(schedule[i]);
    }
    assert h.run + [] == h.run;
    body, st := h.body, h.st;
    ToldBySteps(h.run);
    WholeSchedule(schedule);
  }
}

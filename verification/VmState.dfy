/** VM state changes in `vfkit.Run`: a forwarder goroutine, a channel of capacity
    one, and two waiters that read it one after the other. */
module VmState {
  import opened Prelude

  datatype VM = Stopped | Running | Paused | Error | Starting | Pausing | Resuming | Stopping

  /** `waitForVMState`: still waiting, or how it returned. */
  datatype Wait = NotStarted | Waiting | Reached | Broken | TimedOut

  datatype Result = Nil | Err

  /** `taken` is what the forwarder received from the VM, `hand` the state it has
      not sent on yet, `judged` the one it has sent and not switched on yet, `buffer`
      the channel, `first` and `second` what the two waiters consumed. `syncs` counts
      the time-sync notifications, and `watcher` is what the watcher task returned. */
  datatype State = State(
    taken: seq<VM>, hand: Option<VM>, judged: Option<VM>, buffer: Option<VM>, stopped: bool, syncs: nat,
    first: seq<VM>, second: seq<VM>, waitRunning: Wait, waitStopped: Wait, watcher: Option<Result>)

  const INIT := State([], None, None, None, false, 0, [], [], Waiting, NotStarted, None)

  datatype Label =
    | Change(vm: VM)     // the VM announces a state and the forwarder takes it
    | Forward            // vmState <- state
    | Judge              // the forwarder's switch on the state it sent
    | FirstReceives | FirstTimesOut
    | StartWatcher       // after the wait for Running succeeded
    | SecondReceives

  function Outcome(wanted: VM, got: VM): Wait {
    if got == wanted then Reached else if got == Error then Broken else Waiting
  }

  /** Where a waiter stands after the states it consumed. */
  function WaitOf(wanted: VM, vms: seq<VM>): Wait {
    if vms == [] then Waiting else
      var w := WaitOf(wanted, vms[..|vms| - 1]);
      if w == Waiting then Outcome(wanted, vms[|vms| - 1]) else w
  }

  predicate Decides(wanted: VM, vm: VM) { vm == wanted || vm == Error }

  /** The first state that is the wanted one or an error decides; without one the
      waiter goes on. */
  lemma {:induction false} WaitVerdict(wanted: VM, vms: seq<VM>) returns (i: nat)
    ensures i <= |vms| && forall j :: 0 <= j < i ==> !Decides(wanted, vms[j])
    ensures i < |vms| ==> Decides(wanted, vms[i])
    ensures WaitOf(wanted, vms) ==
            if i == |vms| then Waiting else if vms[i] == wanted then Reached else Broken
    decreases |vms|
  {
    i := 0;
    if vms != [] {
      var n := |vms| - 1;
      i := WaitVerdict(wanted, vms[..n]);
      assert forall j :: 0 <= j < n ==> vms[..n][j] == vms[j];
      if i == n && !Decides(wanted, vms[n]) { i := n + 1; }
    }
  }

  /** What wakes a waiter: a state from the channel or its timer. */
  datatype Wake = Got(vm: VM) | Timer

  /** `waitForVMState` on the wakes that came: it consumes states up to the deciding
      one and leaves the rest in the channel. */
  method WaitForVMState(wanted: VM, wakes: seq<Wake>) returns (w: Wait, got: seq<VM>)
    ensures |got| <= |wakes| && forall i :: 0 <= i < |got| ==> wakes[i] == Got(got[i])
    ensures got != [] ==> WaitOf(wanted, got[..|got| - 1]) == Waiting
    ensures w == TimedOut ==> WaitOf(wanted, got) == Waiting && |got| < |wakes| && wakes[|got|] == Timer
    ensures w != TimedOut ==> w == WaitOf(wanted, got)
    ensures w == Waiting ==> |got| == |wakes|
  {
    w, got := Waiting, [];
    while w == Waiting && |got| < |wakes|
      invariant |got| <= |wakes| && forall i :: 0 <= i < |got| ==> wakes[i] == Got(got[i])
      invariant got != [] ==> WaitOf(wanted, got[..|got| - 1]) == Waiting
      invariant w == TimedOut ==> WaitOf(wanted, got) == Waiting && |got| < |wakes| && wakes[|got|] == Timer
      invariant w != TimedOut ==> w == WaitOf(wanted, got)
      decreases |wakes| - |got|, w == Waiting
    {
      match wakes[|got|]
      case Got(vm) =>
        assert (got + [vm])[..|got|] == got;
        got := got + [vm];
        if vm == wanted {
          w := Reached;
        } else if vm == Error {
          w := Broken;
        }
      case Timer => w := TimedOut;
    }
  }

  predicate Final(vm: VM) { vm == Stopped || vm == Error }

  function Step(s: State, l: Label): Option<State> {
    match l
    case Change(vm) =>
      if s.hand == None && s.judged == None && !s.stopped then Some(s.(hand := Some(vm), taken := s.taken + [vm])) else None
    case Forward =>
      if s.hand.Some? && s.buffer == None then
        Some(s.(buffer := s.hand, judged := s.hand, hand := None))
      else None
    case Judge =>
      if s.judged.Some? then
        var vm := s.judged.value;
        Some(s.(judged := None, stopped := Final(vm), syncs := if vm == Resuming then s.syncs + 1 else s.syncs))
      else None
    case FirstReceives =>
      if s.waitRunning == Waiting && s.buffer.Some? then
        Some(s.(buffer := None, first := s.first + [s.buffer.value],
                waitRunning := Outcome(Running, s.buffer.value)))
      else None
    case FirstTimesOut =>
      if s.waitRunning == Waiting then Some(s.(waitRunning := TimedOut)) else None
    case StartWatcher =>
      if s.waitRunning == Reached && s.waitStopped == NotStarted then Some(s.(waitStopped := Waiting)) else None
    case SecondReceives =>
      if s.waitStopped == Waiting && s.buffer.Some? then
        var w := Outcome(Stopped, s.buffer.value);
        Some(s.(buffer := None, second := s.second + [s.buffer.value], waitStopped := w,
                watcher := if w == Waiting then None else Some(WatcherResult(w))))
      else None
  }

  function After(ls: seq<Label>): Option<State> {
    if ls == [] then Some(INIT) else
      match After(ls[..|ls| - 1])
      case None => None
      case Some(s) => Step(s, ls[|ls| - 1])
  }

  predicate IsRun(ls: seq<Label>) { After(ls).Some? }

  /** `waitForVMState` returns nil on the wanted state only; the watcher passes an
      error on, and turns nil into the error that the VM is stopped. */
  function WaitResult(w: Wait): Result { if w == Reached then Nil else Err }

  function WatcherResult(w: Wait): Result {
    if WaitResult(w) != Nil then WaitResult(w) else Err
  }

  predicate WatcherReturned(s: State) { s.watcher.Some? }

  /** The forwarder has sent the VM's last state, and has returned or is about to. */
  predicate Over(s: State) { s.stopped || (s.judged.Some? && Final(s.judged.value)) }

  function Held(o: Option<VM>): seq<VM> {
    if o.Some? then [o.value] else []
  }

  function Resumes(vms: seq<VM>): nat {
    if vms == [] then 0 else Resumes(vms[..|vms| - 1]) + if vms[|vms| - 1] == Resuming then 1 else 0
  }

  /** Nothing is lost, duplicated or reordered on the way. */
  predicate Conserved(s: State) {
    s.taken == s.first + s.second + Held(s.buffer) + Held(s.hand)
  }

  /** Only the last state taken can end the VM, and the forwarder stops with it. */
  predicate EndsLast(s: State) {
    && (forall i :: 0 <= i < |s.taken| - 1 ==> !Final(s.taken[i]))
    && (s.judged.Some? ==> s.hand == None && !s.stopped && s.taken != [] && s.taken[|s.taken| - 1] == s.judged.value)
    && (Over(s) <==> s.taken != [] && s.hand == None && Final(s.taken[|s.taken| - 1]))
  }

  /** The first waiter sees the end of the VM only as the very last state. */
  predicate FirstEnds(s: State) {
    forall i :: 0 <= i < |s.first| && Final(s.first[i]) ==> Over(s) && i == |s.first| - 1 && s.buffer == None
  }

  predicate Waits(s: State) {
    && (s.waitRunning == Reached ==> s.first != [] && s.first[|s.first| - 1] == Running)
    && (s.waitRunning != Reached ==> s.waitStopped == NotStarted)
    && (s.waitStopped == NotStarted ==> s.second == [])
    && (s.waitStopped == Waiting ==> forall i :: 0 <= i < |s.second| ==> !Final(s.second[i]))
    && s.waitStopped != TimedOut
    && (WatcherReturned(s) <==> s.waitStopped == Reached || s.waitStopped == Broken)
    && (WatcherReturned(s) ==> s.watcher == Some(Err))
    && (WatcherReturned(s) ==> s.second != [] && Final(s.second[|s.second| - 1])
                               && (s.waitStopped == Reached <==> s.second[|s.second| - 1] == Stopped))
  }

  /** How many states taken the forwarder has not yet switched on. */
  function Unjudged(s: State): nat { |Held(s.hand)| + |Held(s.judged)| }

  /** One time sync for each resume that was passed on. */
  predicate Synced(s: State) {
    Unjudged(s) <= |s.taken| && s.syncs == Resumes(s.taken[..|s.taken| - Unjudged(s)])
  }

  /** Both waiters stand where the states they consumed put them. */
  predicate Verdicts(s: State) {
    && WaitOf(Running, s.first) == (if s.waitRunning == TimedOut then Waiting else s.waitRunning)
    && (s.waitStopped != NotStarted ==> s.waitStopped == WaitOf(Stopped, s.second))
  }

  predicate Inv(s: State) {
    Conserved(s) && EndsLast(s) && FirstEnds(s) && Waits(s) && Synced(s) && Verdicts(s)
  }

  lemma StepVerdicts(s: State, l: Label, s': State)
    requires Waits(s) && Verdicts(s) && Step(s, l) == Some(s')
    ensures Verdicts(s')
  {
    if l.FirstReceives? {
      assert s'.first[..|s.first|] == s.first;
    } else if l.SecondReceives? {
      assert s'.second[..|s.second|] == s.second;
    }
  }

  lemma StepConserved(s: State, l: Label, s': State)
    requires Conserved(s) && Waits(s) && Step(s, l) == Some(s')
    ensures Conserved(s')
  {
  }

  lemma StepEndsLast(s: State, l: Label, s': State)
    requires Conserved(s) && EndsLast(s) && Step(s, l) == Some(s')
    ensures EndsLast(s')
  {
    if l.Change? {
      assert forall i :: 0 <= i < |s.taken| ==> s'.taken[i] == s.taken[i] && !Final(s.taken[i]);
    } else {
      assert s'.taken == s.taken;
      if l.Forward? { LastHeld(s); }
    }
  }

  lemma StepSynced(s: State, l: Label, s': State)
    requires EndsLast(s) && Synced(s) && Step(s, l) == Some(s')
    ensures Synced(s')
  {
    if l.Change? {
      assert s'.taken[..|s.taken|] == s.taken == s.taken[..|s.taken|];
    } else if l.Judge? {
      JudgeSynced(s, s');
    } else {
      assert s'.taken == s.taken && Unjudged(s') == Unjudged(s) && s'.syncs == s.syncs;
    }
  }

  lemma JudgeSynced(s: State, s': State)
    requires EndsLast(s) && Synced(s) && Step(s, Judge) == Some(s')
    ensures Synced(s')
  {
    var n := |s.taken|;
    assert s'.taken[..n] == s.taken && Unjudged(s') == 0 && Unjudged(s) == 1;
    assert Resumes(s.taken) == Resumes(s.taken[..n - 1]) + if s.judged.value == Resuming then 1 else 0;
  }

  /** What is on its way is the end of what was taken. */
  lemma LastHeld(s: State)
    requires Conserved(s)
    ensures s.hand.Some? ==> s.taken != [] && s.taken[|s.taken| - 1] == s.hand.value
    ensures s.hand == None && s.buffer.Some? ==> s.taken != [] && s.taken[|s.taken| - 1] == s.buffer.value
    ensures s.hand.Some? && s.buffer.Some? ==> |s.taken| > 1 && s.taken[|s.taken| - 2] == s.buffer.value
  {
  }

  lemma StepWaits(s: State, l: Label, s': State)
    requires Waits(s) && Step(s, l) == Some(s')
    ensures Waits(s')
  {
  }

  lemma StepFirstEnds(s: State, l: Label, s': State)
    requires Conserved(s) && EndsLast(s) && FirstEnds(s) && Waits(s) && Step(s, l) == Some(s')
    ensures FirstEnds(s')
  {
    LastHeld(s);
  }

  lemma {:induction false} RunInv(ls: seq<Label>)
    requires IsRun(ls)
    ensures Inv(After(ls).value)
  {
    if ls != [] {
      var s, l := After(ls[..|ls| - 1]).value, ls[|ls| - 1];
      RunInv(ls[..|ls| - 1]);
      StepConserved(s, l, After(ls).value);
      StepEndsLast(s, l, After(ls).value);
      StepWaits(s, l, After(ls).value);
      StepFirstEnds(s, l, After(ls).value);
      StepSynced(s, l, After(ls).value);
      StepVerdicts(s, l, After(ls).value);
    }
  }

  /** In every run the states taken from the VM are those consumed by the two
      waiters, then the buffered one, then the one in hand. The forwarder stops only
      after Stopped or Error, which it takes no state after. Once the wait for Running
      succeeded its waiter has consumed no Stopped or Error; and when the watcher has
      returned, it returned an error, it consumed the last state there will ever be,
      nothing is on its way, and the forwarder has stopped or only has to return. */
  lemma ForwardingSafety(ls: seq<Label>)
    requires IsRun(ls)
    ensures Safe(After(ls).value)
  {
    RunInv(ls);
    FirstSawNoEnd(After(ls).value);
    if WatcherReturned(After(ls).value) {
      WatcherSawEnd(After(ls).value);
    }
    SafeState(After(ls).value);
  }

  predicate Safe(s: State) {
    && s.taken == s.first + s.second + Held(s.buffer) + Held(s.hand)
    && Unjudged(s) <= 1 && Unjudged(s) <= |s.taken|
    && s.syncs == Resumes(s.taken[..|s.taken| - Unjudged(s)])
    && WaitOf(Running, s.first) == (if s.waitRunning == TimedOut then Waiting else s.waitRunning)
    && (s.waitStopped != NotStarted ==> s.waitStopped == WaitOf(Stopped, s.second))
    && (s.waitRunning == Reached ==> forall i :: 0 <= i < |s.first| ==> s.first[i] !in {Stopped, Error})
    && (forall i :: 0 <= i < |s.taken| - 1 ==> s.taken[i] !in {Stopped, Error})
    && (s.stopped ==> s.taken != [] && s.taken[|s.taken| - 1] in {Stopped, Error})
    && (WatcherReturned(s) ==>
          && s.watcher == Some(Err) && s.buffer == None && s.hand == None && Over(s)
          && s.second != [] && s.second[|s.second| - 1] == s.taken[|s.taken| - 1])
  }

  lemma SafeState(s: State)
    requires Inv(s)
    requires s.waitRunning == Reached ==> forall i :: 0 <= i < |s.first| ==> !Final(s.first[i])
    requires WatcherReturned(s) ==> s.buffer == None && s.hand == None && Over(s)
    requires WatcherReturned(s) ==> s.second != [] && s.second[|s.second| - 1] == s.taken[|s.taken| - 1]
    ensures Safe(s)
  {
    assert forall vm :: Final(vm) <==> vm in {Stopped, Error};
  }

  lemma FirstSawNoEnd(s: State)
    requires FirstEnds(s) && Waits(s)
    ensures s.waitRunning == Reached ==> forall i :: 0 <= i < |s.first| ==> !Final(s.first[i])
  {
  }

  lemma WatcherSawEnd(s: State)
    requires Conserved(s) && EndsLast(s) && Waits(s) && WatcherReturned(s)
    ensures s.buffer == None && s.hand == None && Over(s)
    ensures s.second != [] && s.second[|s.second| - 1] == s.taken[|s.taken| - 1]
  {
    var n := |s.first| + |s.second| - 1;
    assert s.taken[n] == s.second[|s.second| - 1];
    assert n == |s.taken| - 1;
  }

  // ------------------------------------------- the run, told by its steps alone

  function Announced(ls: seq<Label>): seq<VM> {
    if ls == [] then [] else
      var l, prev := ls[|ls| - 1], Announced(ls[..|ls| - 1]);
      if l.Change? then prev + [l.vm] else prev
  }

  function Count(ls: seq<Label>, l: Label): nat {
    if ls == [] then 0 else Count(ls[..|ls| - 1], l) + if ls[|ls| - 1] == l then 1 else 0
  }

  function Slice(vms: seq<VM>, i: nat, n: nat): seq<VM> {
    if i + n <= |vms| then vms[i..i + n] else []
  }

  /** When a step can come next, from the states announced and the number of steps of
      each kind. */
  predicate Allowed(ls: seq<Label>, l: Label) {
    var vms := Announced(ls);
    var sent, judged := Count(ls, Forward), Count(ls, Judge);
    var first, second := Count(ls, FirstReceives), Count(ls, SecondReceives);
    var w1 := WaitOf(Running, Slice(vms, 0, first));
    match l
    case Change(_) => |vms| == judged && (judged > 0 ==> vms[judged - 1] !in {Stopped, Error})
    case Forward => sent < |vms| && sent == first + second
    case Judge => judged < sent
    case FirstReceives => FirstTimesOut !in ls && w1 == Waiting && first + second < sent
    case FirstTimesOut => FirstTimesOut !in ls && w1 == Waiting
    case StartWatcher => FirstTimesOut !in ls && w1 == Reached && StartWatcher !in ls
    case SecondReceives =>
      StartWatcher in ls && WaitOf(Stopped, Slice(vms, first, second)) == Waiting && first + second < sent
  }

  ghost predicate Told(ls: seq<Label>, s: State) {
    && s.taken == Announced(ls)
    && |s.taken| == Count(ls, Forward) + |Held(s.hand)|
    && Count(ls, Forward) == Count(ls, Judge) + |Held(s.judged)|
    && |s.first| == Count(ls, FirstReceives) && |s.second| == Count(ls, SecondReceives)
    && (s.waitRunning == TimedOut <==> FirstTimesOut in ls)
    && (s.waitStopped != NotStarted <==> StartWatcher in ls)
  }

  lemma CountsNext(ls: seq<Label>, l: Label)
    ensures Announced(ls + [l]) == if l.Change? then Announced(ls) + [l.vm] else Announced(ls)
    ensures forall x :: Count(ls + [l], x) == Count(ls, x) + if l == x then 1 else 0
    ensures forall x :: x in ls + [l] <==> x in ls || x == l
  {
    assert (ls + [l])[..|ls|] == ls;
  }

  lemma ToldNext(ls: seq<Label>, l: Label, s: State, s': State)
    requires Told(ls, s) && EndsLast(s) && Waits(s) && Verdicts(s) && Step(s, l) == Some(s')
    ensures Told(ls + [l], s')
  {
    CountsNext(ls, l);
  }

  lemma {:induction false} ToldBySteps(ls: seq<Label>)
    requires IsRun(ls)
    ensures Told(ls, After(ls).value)
  {
    if ls != [] {
      var prev, l := ls[..|ls| - 1], ls[|ls| - 1];
      ToldBySteps(prev);
      RunInv(prev);
      ToldNext(prev, l, After(prev).value, After(ls).value);
      assert prev + [l] == ls;
    }
  }

  lemma SlicesOf(s: State)
    requires Conserved(s)
    ensures Slice(s.taken, 0, |s.first|) == s.first && Slice(s.taken, |s.first|, |s.second|) == s.second
    ensures |s.taken| == |s.first| + |s.second| + |Held(s.buffer)| + |Held(s.hand)|
  {
  }

  /** The places a state can be in, from the numbers of steps. */
  predicate Placed(s: State, vms: seq<VM>, sent: nat, judged: nat, first: nat, second: nat) {
    && (s.hand.Some? <==> sent < |vms|)
    && (s.judged.Some? <==> judged < sent)
    && (s.buffer.Some? <==> first + second < sent) && first + second <= sent
    && (s.hand == None && s.judged == None && !s.stopped <==>
        |vms| == judged && (judged > 0 ==> vms[judged - 1] !in {Stopped, Error}))
    && Slice(vms, 0, first) == s.first && Slice(vms, first, second) == s.second
  }

  lemma PlacedNow(ls: seq<Label>, s: State)
    requires Told(ls, s) && Conserved(s) && EndsLast(s)
    ensures Placed(s, Announced(ls), Count(ls, Forward), Count(ls, Judge),
                   Count(ls, FirstReceives), Count(ls, SecondReceives))
  {
    SlicesOf(s);
    LastHeld(s);
  }

  lemma StepAllowed(ls: seq<Label>, l: Label, s: State)
    requires Told(ls, s) && Verdicts(s) && Waits(s)
    requires Placed(s, Announced(ls), Count(ls, Forward), Count(ls, Judge),
                    Count(ls, FirstReceives), Count(ls, SecondReceives))
    ensures Step(s, l).Some? <==> Allowed(ls, l)
  {
  }

  /** In every run the forwarder has taken exactly what the VM announced, and a step
      can come next exactly when it is allowed. */
  lemma RunExactly(ls: seq<Label>, l: Label)
    requires IsRun(ls)
    ensures After(ls).value.taken == Announced(ls)
    ensures IsRun(ls + [l]) <==> Allowed(ls, l)
  {
    ToldBySteps(ls);
    RunInv(ls);
    PlacedNow(ls, After(ls).value);
    StepAllowed(ls, l, After(ls).value);
    assert (ls + [l])[..|ls|] == ls;
  }

  /** The forwarder waits to send and nothing can happen any more. */
  ghost predicate Blocked(s: State) { s.hand.Some? && forall l :: Step(s, l) == None }

  predicate Failed(w: Wait) { w == Broken || w == TimedOut }

  /** When the wait for Running fails nobody reads the channel any more: with a
      state buffered and another in hand no step is left, so the forwarder's task
      never returns. */
  lemma FailedWaitCanBlock()
    ensures var ls := [Change(Starting), FirstTimesOut, Forward, Judge, Change(Running)];
            && IsRun(ls) && Failed(After(ls).value.waitRunning) && Blocked(After(ls).value)
  {
    var l1 := [Change(Starting)];
    var l2 := l1 + [FirstTimesOut];
    var l3 := l2 + [Forward];
    var l4 := l3 + [Judge];
    var l5 := l4 + [Change(Running)];
    assert l1[..0] == [] && l2[..1] == l1 && l3[..2] == l2 && l4[..3] == l3 && l5[..4] == l4;
    assert After(l1).Some? && After(l2).Some? && After(l3).Some? && After(l4).Some?;
    assert l5 == [Change(Starting), FirstTimesOut, Forward, Judge, Change(Running)];
  }

  lemma FullStep(s: State, l: Label)
    requires Inv(s) && Failed(s.waitRunning) && s.buffer.Some? && s.hand.Some?
    ensures Step(s, l) == None
  {
  }

  /** After a failed wait the VM's next two states fill the channel and the
      forwarder's hand. The forwarder is blocked for good exactly when two were
      taken; that happens only if the first of them does not end the VM, and a
      forwarder that stopped took at most one. */
  lemma FailedWaitLimit(ls: seq<Label>)
    requires IsRun(ls) && Failed(After(ls).value.waitRunning)
    ensures var s := After(ls).value;
            && |s.first| <= |s.taken| <= |s.first| + 2
            && (Blocked(s) <==> |s.taken| == |s.first| + 2)
            && (Blocked(s) ==> !Final(s.taken[|s.first|]))
            && (s.stopped ==> |s.taken| <= |s.first| + 1)
  {
    RunInv(ls);
    FailedState(After(ls).value);
  }

  lemma FailedState(s: State)
    requires Inv(s) && Failed(s.waitRunning)
    ensures |s.first| <= |s.taken| <= |s.first| + 2
    ensures Blocked(s) <==> |s.taken| == |s.first| + 2
    ensures Blocked(s) ==> !Final(s.taken[|s.first|])
    ensures s.stopped ==> |s.taken| <= |s.first| + 1
  {
    assert |s.taken| == |s.first| + |Held(s.buffer)| + |Held(s.hand)|;
    if s.buffer.Some? && s.hand.Some? {
      forall l ensures Step(s, l) == None { FullStep(s, l); }
    } else if s.hand.Some? {
      assert Step(s, Forward).Some?;
    }
  }
}

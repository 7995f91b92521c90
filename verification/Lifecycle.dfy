/** One run of `ovm` from event setup to exit: the task group of cmd/ovm/main.go,
    the event queue of pkg/ipc/event with its one consumer, and the channels of
    pkg/channel, in every interleaving. The event socket is taken to be set. */
module Lifecycle {
  import opened Prelude

  datatype App = GVProxyReady | IgnitionProgress | IgnitionDone | Ready

  datatype Event = Initializing | Status(app: App) | Failure | Exit

  /** The tasks of the group: six started by `main`, the ones with a part in the
      events or channels, and any number of others. */
  datatype Task =
    | ReadySocket | Agent | BindPid | GvProxy | Vfkit | Signals
    | SshForward | SyncLoop | PowerLoop | StateForwarder | Ignition
    | Other(n: nat)

  const STARTED := [ReadySocket, Agent, BindPid, GvProxy, Vfkit, Signals]

  datatype Action =
    | SendGv | RecvGv | SendVm | RecvVm | SendSync | RecvSync
    | Notify(app: App) | Spawn(task: Task) | Return(err: bool)

  /** The program of each task: where it goes from `pc` by an action, if it can.
      `cancelled` is whether the group's context is done. */
  function Next(t: Task, pc: nat, a: Action, cancelled: bool): Option<nat> {
    match t
    case ReadySocket =>
      (match a
       case SendVm => if pc == 0 then Some(1) else None
       case Notify(Ready) => if pc == 1 then Some(2) else None
       case Return(err) => if pc == (if err then 0 else 2) then Some(pc) else None
       case _ => None)
    case GvProxy =>
      (match a
       case Spawn(Other(_)) => if pc == 0 then Some(0) else None
       case SendGv => if pc == 0 then Some(1) else None
       case Notify(GVProxyReady) => if pc == 1 then Some(2) else None
       case Spawn(SshForward) => if pc == 2 then Some(3) else None
       case Return(err) => if pc == (if err then 0 else 3) then Some(pc) else None
       case _ => None)
    case Vfkit =>
      (match a
       case RecvGv => if pc == 0 then Some(1) else None
       case Spawn(SyncLoop) => if pc == 1 then Some(2) else None
       case Spawn(PowerLoop) => if pc == 2 then Some(3) else None
       case Spawn(StateForwarder) => if pc == 3 then Some(4) else None
       case Notify(IgnitionProgress) => if pc == 4 then Some(5) else None
       case Spawn(Ignition) => if pc == 5 then Some(6) else None
       case Spawn(Other(_)) => if pc in {0, 1, 2, 6} then Some(pc) else None
       case Return(err) =>
         if err then (if pc in {0, 1, 4, 5, 6} then Some(pc) else None)
         else if pc == 6 || (pc == 0 && cancelled) then Some(pc) else None
       case _ => None)
    case Ignition =>
      (match a
       case Notify(IgnitionDone) => if pc == 0 then Some(1) else None
       case Return(err) => if pc == 1 || (pc == 0 && err) then Some(pc) else None
       case _ => None)
    case SshForward =>
      (match a
       case RecvVm => if pc == 0 then Some(1) else None
       case Return(err) => if pc == 1 || (pc == 0 && !err && cancelled) then Some(pc) else None
       case _ => None)
    case SyncLoop =>
      (match a
       case RecvSync => Some(pc)
       case Return(err) => if err || cancelled then Some(pc) else None
       case _ => None)
    case PowerLoop => SendingLoop(pc, a)
    case StateForwarder => SendingLoop(pc, a)
    case BindPid => if a == Return(true) then Some(pc) else None
    case Signals => if a == Return(true) || (a == Return(false) && cancelled) then Some(pc) else None
    case Agent => if a.Return? && cancelled then Some(pc) else None
    case Other(_) => if a.Return? then Some(pc) else None
  }

  function SendingLoop(pc: nat, a: Action): Option<nat> {
    if a == SendSync || a == Return(false) then Some(pc) else None
  }

  datatype Run = Run(pc: nat, live: bool)

  /** Where `main` is: `Starting(n)` has started n tasks; `Leaving` is the entry of
      `exit`, `Draining` waits for the consumer, `Drained` is `NotifyExit` returned,
      and `Closed` comes after `channel.Close`. */
  datatype Main = Setup | AgentUp | Announced | Starting(n: nat) | Waiting | Leaving | Draining | Drained | Closed

  /** The consumer offers its handshake after it has attempted an exit event. */
  datatype Consumer = Consuming | Offering | Finished

  /** The two ready channels, of capacity one, and the unbounded sync queue, which
      `channel.Close` closes together. `panicked` records a send after that, `bogus`
      a receive of a closed channel's zero value. */
  datatype Channels = Channels(gv: bool, vm: bool, syncs: nat, closed: bool, panicked: bool, bogus: bool)

  /** Everything enqueued; the consumer has attempted the first `attempted` of it. */
  datatype Events = Events(log: seq<Event>, attempted: nat, consumer: Consumer)

  datatype State = State(main: Main, tasks: map<Task, Run>, err: bool, ch: Channels, ev: Events)

  const INIT := State(Setup, map[], false, Channels(false, false, 0, false, false, false), Events([], 0, Consuming))

  datatype Label =
    | AgentFails | AgentOk | Announce | ListenFails | ListenOk | Start | WaitReturns
    | SendExit | Handshake | CloseChannels | Consume | Act(t: Task, a: Action)

  predicate Live(s: State, t: Task) { t in s.tasks && s.tasks[t].live }

  predicate Idle(s: State) { forall t :: t in s.tasks ==> !s.tasks[t].live }

  function Pc(s: State, t: Task): nat { if t in s.tasks then s.tasks[t].pc else 0 }

  /** What a send or receive does; `None` when it blocks. */
  function Transfer(ch: Channels, a: Action): Option<Channels> {
    match a
    case SendGv =>
      if ch.closed then Some(ch.(panicked := true)) else if ch.gv then None else Some(ch.(gv := true))
    case SendVm =>
      if ch.closed then Some(ch.(panicked := true)) else if ch.vm then None else Some(ch.(vm := true))
    case SendSync =>
      if ch.closed then Some(ch.(panicked := true)) else Some(ch.(syncs := ch.syncs + 1))
    case RecvGv =>
      if ch.gv then Some(ch.(gv := false)) else if ch.closed then Some(ch.(bogus := true)) else None
    case RecvVm =>
      if ch.vm then Some(ch.(vm := false)) else if ch.closed then Some(ch.(bogus := true)) else None
    case RecvSync =>
      if ch.syncs > 0 then Some(ch.(syncs := ch.syncs - 1))
      else if ch.closed then Some(ch.(bogus := true)) else None
    case _ => Some(ch)
  }

  function Enqueue(ev: Events, e: Event): Events { ev.(log := ev.log + [e]) }

  function ActStep(s: State, t: Task, a: Action): Option<State> {
    if !Live(s, t) || (a.Spawn? && a.task in s.tasks) then None else
    match (Next(t, s.tasks[t].pc, a, s.err), Transfer(s.ch, a))
    case (Some(pc), Some(ch)) =>
      Some(State(s.main, Moved(s.tasks, t, a, pc), s.err || a == Return(true), ch,
                 if a.Notify? then Enqueue(s.ev, Status(a.app)) else s.ev))
    case _ => None
  }

  function Moved(tasks: map<Task, Run>, t: Task, a: Action, pc: nat): map<Task, Run> {
    (if a.Spawn? then tasks[a.task := Run(0, true)] else tasks)[t := Run(pc, !a.Return?)]
  }

  function Step(s: State, l: Label): Option<State> {
    match l
    case AgentFails => if s.main == Setup then Some(s.(main := Leaving)) else None
    case AgentOk => if s.main == Setup then Some(s.(main := AgentUp)) else None
    case Announce =>
      if s.main == AgentUp then Some(s.(main := Announced, ev := Enqueue(s.ev, Initializing))) else None
    case ListenFails => if s.main == Announced then Some(s.(main := Leaving)) else None
    case ListenOk => if s.main == Announced then Some(s.(main := Starting(0))) else None
    case Start =>
      if !s.main.Starting? then None
      else if s.main.n < |STARTED| then
        Some(s.(main := Starting(s.main.n + 1), tasks := s.tasks[STARTED[s.main.n] := Run(0, true)]))
      else Some(s.(main := Waiting))
    case WaitReturns =>
      if s.main == Waiting && Idle(s)
      then Some(s.(main := Leaving, ev := if s.err then Enqueue(s.ev, Failure) else s.ev)) else None
    case SendExit => if s.main == Leaving then Some(s.(main := Draining, ev := Enqueue(s.ev, Exit))) else None
    case Handshake =>
      if s.main == Draining && s.ev.consumer == Offering
      then Some(s.(main := Drained, ev := s.ev.(consumer := Finished))) else None
    case CloseChannels =>
      if s.main == Drained then Some(s.(main := Closed, ch := s.ch.(closed := true))) else None
    case Consume =>
      if s.ev.consumer == Consuming && s.ev.attempted < |s.ev.log| then
        var consumer := if s.ev.log[s.ev.attempted] == Exit then Offering else Consuming;
        Some(s.(ev := s.ev.(attempted := s.ev.attempted + 1, consumer := consumer)))
      else None
    case Act(t, a) => ActStep(s, t, a)
  }

  function After(ls: seq<Label>): Option<State> {
    if ls == [] then Some(INIT) else
      match After(ls[..|ls| - 1])
      case None => None
      case Some(s) => Step(s, ls[|ls| - 1])
  }

  predicate IsRun(ls: seq<Label>) { After(ls).Some? }

  // ------------------------------------------------------------ the task group

  predicate BeforeGroup(m: Main) { m in {Setup, AgentUp, Announced} }

  predicate AfterGroup(m: Main) { m in {Leaving, Draining, Drained, Closed} }

  /** Tasks exist only while the group runs or after it ended, all started ones
      once it waits, and the bind-pid task does not end without an error. */
  ghost predicate GroupOk(s: State) {
    && (BeforeGroup(s.main) ==> s.tasks == map[])
    && (s.main.Starting? ==> s.main.n <= |STARTED|
                             && forall j :: 0 <= j < |STARTED| ==> (STARTED[j] in s.tasks <==> j < s.main.n))
    && (s.main == Waiting ==> forall j :: 0 <= j < |STARTED| ==> STARTED[j] in s.tasks)
    && (AfterGroup(s.main) ==> Idle(s))
    && (BindPid in s.tasks && !s.tasks[BindPid].live ==> s.err)
  }

  /** How far a task's parent got before starting it. */
  function ParentAt(u: Task): (Task, nat) {
    match u
    case SshForward => (GvProxy, 3)
    case SyncLoop => (Vfkit, 2)
    case PowerLoop => (Vfkit, 3)
    case StateForwarder => (Vfkit, 4)
    case Ignition => (Vfkit, 6)
    case _ => (Vfkit, 0)
  }

  ghost predicate ParentsOk(s: State) {
    forall u :: u in s.tasks ==> Pc(s, ParentAt(u).0) >= ParentAt(u).1
  }

  /** The program table as far as the group is concerned. */
  lemma NextFacts(t: Task, pc: nat, a: Action, cancelled: bool, pc': nat)
    requires Next(t, pc, a, cancelled) == Some(pc')
    ensures pc <= pc'
    ensures a.Spawn? ==> a.task !in STARTED
    ensures a.Spawn? && !a.task.Other? ==> ParentAt(a.task) == (t, pc') && pc < pc'
    ensures a.Return? && t == BindPid ==> a.err
  {
  }

  /** One action of a task, seen from the group. */
  lemma ActShape(s: State, t: Task, a: Action, s': State) returns (pc: nat)
    requires ActStep(s, t, a) == Some(s')
    ensures Live(s, t) && Next(t, s.tasks[t].pc, a, s.err) == Some(pc)
    ensures s'.tasks == Moved(s.tasks, t, a, pc) && s'.main == s.main
    ensures a.Spawn? ==> a.task !in s.tasks
    ensures s'.err == (s.err || a == Return(true))
  {
    pc := Next(t, s.tasks[t].pc, a, s.err).value;
  }

  lemma ActGroup(s: State, t: Task, a: Action, s': State)
    requires GroupOk(s) && ActStep(s, t, a) == Some(s')
    ensures GroupOk(s')
  {
    var pc := ActShape(s, t, a, s');
    NextFacts(t, s.tasks[t].pc, a, s.err, pc);
    assert !BeforeGroup(s.main) && !AfterGroup(s.main);
  }

  lemma StepGroup(s: State, l: Label, s': State)
    requires GroupOk(s) && Step(s, l) == Some(s')
    ensures GroupOk(s')
  {
    match l
    case Act(t, a) => ActGroup(s, t, a, s');
    case Start => StartGroup(s, s');
    case _ =>
  }

  lemma StartedDistinct(i: nat, j: nat)
    requires i < j < |STARTED|
    ensures STARTED[i] != STARTED[j]
  {
  }

  lemma StartGroup(s: State, s': State)
    requires GroupOk(s) && Step(s, Start) == Some(s')
    ensures GroupOk(s')
  {
    var n := s.main.n;
    if n < |STARTED| {
      forall j | 0 <= j < |STARTED| ensures STARTED[j] in s'.tasks <==> j < n + 1 {
        if n < j { StartedDistinct(n, j); }
      }
    }
  }

  lemma ActParents(s: State, t: Task, a: Action, s': State)
    requires ParentsOk(s) && ActStep(s, t, a) == Some(s')
    ensures ParentsOk(s')
  {
    var pc := ActShape(s, t, a, s');
    NextFacts(t, s.tasks[t].pc, a, s.err, pc);
    forall u | u in s'.tasks ensures Pc(s', ParentAt(u).0) >= ParentAt(u).1 {
      assert u in s.tasks || (a.Spawn? && u == a.task);
    }
  }

  lemma StepParents(s: State, l: Label, s': State)
    requires GroupOk(s) && ParentsOk(s) && Step(s, l) == Some(s')
    ensures ParentsOk(s')
  {
    if l.Act? {
      ActParents(s, l.t, l.a, s');
    } else {
      MoreTasks(s, s');
    }
  }

  lemma MoreTasks(s: State, s': State)
    requires ParentsOk(s)
    requires forall t :: t in s.tasks ==> t in s'.tasks && s'.tasks[t] == s.tasks[t]
    requires forall t :: t in s'.tasks && t !in s.tasks ==> t in STARTED
    ensures ParentsOk(s')
  {
    forall u | u in s'.tasks ensures Pc(s', ParentAt(u).0) >= ParentAt(u).1 {
      assert u in s.tasks ==> Pc(s, ParentAt(u).0) >= ParentAt(u).1;
    }
  }

  // ------------------------------------------------------------- the channels

  predicate ChannelsOk(s: State) {
    && !s.ch.panicked && !s.ch.bogus
    && (s.ch.closed <==> s.main == Closed)
    && (s.ch.gv ==> Pc(s, GvProxy) >= 1)
    && (s.ch.vm ==> Pc(s, ReadySocket) >= 1)
  }

  /** Only one statement sends each of the ready notifications. */
  lemma ReadySenders(t: Task, pc: nat, a: Action, cancelled: bool, pc': nat)
    requires Next(t, pc, a, cancelled) == Some(pc')
    ensures a.SendGv? ==> t == GvProxy && pc == 0 && pc' == 1
    ensures a.SendVm? ==> t == ReadySocket && pc == 0 && pc' == 1
  {
  }

  lemma TransferFacts(ch: Channels, a: Action, ch': Channels)
    requires Transfer(ch, a) == Some(ch') && !ch.closed && !ch.panicked && !ch.bogus
    ensures !ch'.closed && !ch'.panicked && !ch'.bogus
    ensures ch'.gv ==> ch.gv || a.SendGv?
    ensures ch'.vm ==> ch.vm || a.SendVm?
  {
  }

  lemma ActChannels(s: State, t: Task, a: Action, s': State)
    requires GroupOk(s) && ChannelsOk(s) && ActStep(s, t, a) == Some(s')
    ensures ChannelsOk(s')
  {
    var pc := ActShape(s, t, a, s');
    NextFacts(t, s.tasks[t].pc, a, s.err, pc);
    ReadySenders(t, s.tasks[t].pc, a, s.err, pc);
    TransferFacts(s.ch, a, s'.ch);
  }

  lemma StepChannels(s: State, l: Label, s': State)
    requires GroupOk(s) && ChannelsOk(s) && Step(s, l) == Some(s')
    ensures ChannelsOk(s')
  {
    if l.Act? {
      ActChannels(s, l.t, l.a, s');
    }
  }

  // --------------------------------------------------------------- the events

  /** Which task announces a status, and where it is afterwards. */
  function AnnouncedAt(app: App): (Task, nat) {
    match app
    case Ready => (ReadySocket, 2)
    case GVProxyReady => (GvProxy, 2)
    case IgnitionProgress => (Vfkit, 5)
    case IgnitionDone => (Ignition, 1)
  }

  ghost predicate StatusOk(s: State) {
    && (forall app :: Status(app) in s.ev.log ==> Pc(s, AnnouncedAt(app).0) >= AnnouncedAt(app).1)
    && (Pc(s, Vfkit) >= 5 ==> Status(IgnitionProgress) in s.ev.log)
  }

  lemma Announcers(t: Task, pc: nat, a: Action, cancelled: bool, pc': nat)
    requires Next(t, pc, a, cancelled) == Some(pc')
    ensures a.Notify? ==> AnnouncedAt(a.app) == (t, pc') && pc < pc'
    ensures t == Vfkit && pc < 5 <= pc' ==> a == Notify(IgnitionProgress)
  {
  }

  lemma ActStatus(s: State, t: Task, a: Action, s': State)
    requires StatusOk(s) && ActStep(s, t, a) == Some(s')
    ensures StatusOk(s')
    ensures a.Notify? ==> Status(a.app) !in s.ev.log
  {
    var pc := ActShape(s, t, a, s');
    NextFacts(t, s.tasks[t].pc, a, s.err, pc);
    Announcers(t, s.tasks[t].pc, a, s.err, pc);
    forall app | Status(app) in s'.ev.log ensures Pc(s', AnnouncedAt(app).0) >= AnnouncedAt(app).1 {
      assert Status(app) in s.ev.log || a == Notify(app);
    }
  }

  lemma StepStatus(s: State, l: Label, s': State)
    requires GroupOk(s) && StatusOk(s) && Step(s, l) == Some(s')
    ensures StatusOk(s')
  {
    if l.Act? {
      ActStatus(s, l.t, l.a, s');
    } else {
      forall app | Status(app) in s'.ev.log ensures Pc(s', AnnouncedAt(app).0) >= AnnouncedAt(app).1 {
        assert Status(app) in s.ev.log;
      }
    }
  }

  /** Status events only, each at most once, ignition done only after progress. */
  predicate StatusesOk(apps: seq<Event>) {
    && (forall i :: 0 <= i < |apps| ==> apps[i].Status?)
    && (forall i, j :: 0 <= i < j < |apps| ==> apps[i] != apps[j])
    && (forall j :: 0 <= j < |apps| && apps[j] == Status(IgnitionDone) ==>
          exists i :: 0 <= i < j && apps[i] == Status(IgnitionProgress))
  }

  /** The log of a run that failed before, or after, the group was started. */
  predicate EndOk(log: seq<Event>) {
    || log == [] || log == [Initializing]
    || (|log| >= 2 && log[0] == Initializing && log[|log| - 1] == Failure && StatusesOk(log[1..|log| - 1]))
  }

  predicate ExitSent(m: Main) { m in {Draining, Drained, Closed} }

  predicate LogOk(s: State) {
    var log := s.ev.log;
    && (s.main in {Setup, AgentUp} ==> log == [])
    && (s.main == Announced ==> log == [Initializing])
    && ((s.main.Starting? || s.main == Waiting) ==> log != [] && log[0] == Initializing && StatusesOk(log[1..]))
    && (s.main == Leaving ==> EndOk(log))
    && (ExitSent(s.main) ==> log != [] && log[|log| - 1] == Exit && EndOk(log[..|log| - 1]))
  }

  lemma StatusesExtend(log: seq<Event>, app: App)
    requires log != [] && StatusesOk(log[1..]) && Status(app) !in log
    requires app == IgnitionDone ==> log[0] == Initializing && Status(IgnitionProgress) in log
    ensures StatusesOk((log + [Status(app)])[1..])
  {
    var apps := log[1..];
    assert (log + [Status(app)])[1..] == apps + [Status(app)];
    assert forall i :: 0 <= i < |apps| ==> apps[i] == log[i + 1];
    if app == IgnitionDone {
      var i :| 0 <= i < |log| && log[i] == Status(IgnitionProgress);
      assert apps[i - 1] == Status(IgnitionProgress);
    }
    forall j | 0 <= j < |apps| + 1 && (apps + [Status(app)])[j] == Status(IgnitionDone)
      ensures exists i :: 0 <= i < j && (apps + [Status(app)])[i] == Status(IgnitionProgress)
    {
      if j < |apps| {
        var i :| 0 <= i < j && apps[i] == Status(IgnitionProgress);
        assert (apps + [Status(app)])[i] == Status(IgnitionProgress);
      } else {
        var i :| 0 <= i < |apps| && apps[i] == Status(IgnitionProgress);
        assert (apps + [Status(app)])[i] == Status(IgnitionProgress);
      }
    }
  }

  lemma ActLog(s: State, t: Task, a: Action, s': State)
    requires GroupOk(s) && ParentsOk(s) && StatusOk(s) && LogOk(s) && ActStep(s, t, a) == Some(s')
    ensures LogOk(s')
  {
    var pc := ActShape(s, t, a, s');
    ActStatus(s, t, a, s');
    if a.Notify? {
      Announcers(t, s.tasks[t].pc, a, s.err, pc);
      if a.app == IgnitionDone {
        assert t == Ignition && Pc(s, ParentAt(t).0) >= 6;
      }
      StatusesExtend(s.ev.log, a.app);
    }
  }

  lemma WaitLog(s: State, s': State)
    requires GroupOk(s) && LogOk(s) && Step(s, WaitReturns) == Some(s')
    ensures LogOk(s') && s.err
  {
    BindPidEnded(s);
    var log := s'.ev.log;
    assert log[1..|log| - 1] == s.ev.log[1..];
  }

  /** The group never ends without an error, because of the bind-pid task. */
  lemma BindPidEnded(s: State)
    requires GroupOk(s) && s.main == Waiting && Idle(s)
    ensures s.err
  {
    assert STARTED[2] == BindPid && STARTED[2] in s.tasks;
  }

  lemma MainLog(s: State, l: Label, s': State)
    requires LogOk(s) && Step(s, l) == Some(s') && !l.Act? && !l.WaitReturns? && !l.SendExit?
    ensures LogOk(s')
  {
    if l.Announce? {
      assert s'.ev.log == [] + [Initializing];
    } else {
      assert s'.ev.log == s.ev.log;
    }
  }

  lemma ExitLog(s: State, s': State)
    requires LogOk(s) && Step(s, SendExit) == Some(s')
    ensures LogOk(s')
  {
    assert s'.ev.log[..|s'.ev.log| - 1] == s.ev.log;
  }

  lemma StepLog(s: State, l: Label, s': State)
    requires GroupOk(s) && ParentsOk(s) && StatusOk(s) && LogOk(s) && Step(s, l) == Some(s')
    ensures LogOk(s')
  {
    if l.Act? {
      ActLog(s, l.t, l.a, s');
    } else if l.WaitReturns? {
      WaitLog(s, s');
    } else if l.SendExit? {
      ExitLog(s, s');
    } else {
      MainLog(s, l, s');
    }
  }

  // ------------------------------------------------------------- the handshake

  predicate ConsumerOk(s: State) {
    && s.ev.attempted <= |s.ev.log|
    && (s.ev.consumer == Consuming ==> Exit !in s.ev.log[..s.ev.attempted] && s.main !in {Drained, Closed})
    && (s.ev.consumer == Offering ==> s.main == Draining && s.ev.attempted == |s.ev.log|)
    && (s.ev.consumer == Finished ==> s.main in {Drained, Closed} && s.ev.attempted == |s.ev.log|)
  }

  lemma NoExit(log: seq<Event>)
    requires EndOk(log)
    ensures Exit !in log
  {
    forall i | 0 <= i < |log| ensures log[i] != Exit {
      if 0 < i < |log| - 1 {
        assert log[1..|log| - 1][i - 1] == log[i];
      }
    }
  }

  lemma ExitIsLast(s: State, i: nat)
    requires LogOk(s) && i < |s.ev.log| && s.ev.log[i] == Exit
    ensures i == |s.ev.log| - 1 && ExitSent(s.main)
  {
    var log := s.ev.log;
    if ExitSent(s.main) {
      NoExit(log[..|log| - 1]);
      assert forall j :: 0 <= j < |log| - 1 ==> log[..|log| - 1][j] == log[j];
    } else {
      NoExitYet(s);
    }
  }

  lemma NoExitYet(s: State)
    requires LogOk(s) && !ExitSent(s.main)
    ensures Exit !in s.ev.log
  {
    var log := s.ev.log;
    if s.main == Leaving {
      NoExit(log);
    } else if s.main.Starting? || s.main == Waiting {
      assert forall j :: 1 <= j < |log| ==> log[1..][j - 1] == log[j];
    }
  }

  lemma ConsumeOk(s: State, s': State)
    requires LogOk(s) && ConsumerOk(s) && Step(s, Consume) == Some(s')
    ensures ConsumerOk(s')
  {
    var k := s.ev.attempted;
    if s.ev.log[k] == Exit {
      ExitIsLast(s, k);
    } else {
      assert s.ev.log[..k + 1] == s.ev.log[..k] + [s.ev.log[k]];
    }
  }

  lemma StepConsumer(s: State, l: Label, s': State)
    requires GroupOk(s) && LogOk(s) && ConsumerOk(s) && Step(s, l) == Some(s')
    ensures ConsumerOk(s')
  {
    if l.Consume? {
      ConsumeOk(s, s');
    } else {
      assert s'.ev.attempted == s.ev.attempted;
      assert s'.ev.log[..s.ev.attempted] == s.ev.log[..s.ev.attempted];
      if l.Act? { var _ := ActShape(s, l.t, l.a, s'); }
    }
  }

  // --------------------------------------------- the network before the machine

  /** The machine is started only after gvproxy's notification, and gvproxy ends
      either before notifying or after announcing itself. */
  ghost predicate GvOk(s: State) {
    && (Pc(s, Vfkit) >= 1 ==> Pc(s, GvProxy) >= 1)
    && (Pc(s, GvProxy) >= 2 ==> Status(GVProxyReady) in s.ev.log)
    && (GvProxy in s.tasks && !s.tasks[GvProxy].live ==> Pc(s, GvProxy) in {0, 3})
  }

  lemma GvProgram(t: Task, pc: nat, a: Action, cancelled: bool, pc': nat)
    requires Next(t, pc, a, cancelled) == Some(pc')
    ensures t == Vfkit && pc == 0 && pc' >= 1 ==> a == RecvGv
    ensures t == GvProxy && pc < 2 <= pc' ==> a == Notify(GVProxyReady)
    ensures t == GvProxy && a.Return? ==> pc' in {0, 3}
  {
  }

  lemma ActGv(s: State, t: Task, a: Action, s': State)
    requires GroupOk(s) && ChannelsOk(s) && GvOk(s) && ActStep(s, t, a) == Some(s')
    ensures GvOk(s')
  {
    var pc := ActShape(s, t, a, s');
    NextFacts(t, s.tasks[t].pc, a, s.err, pc);
    GvProgram(t, s.tasks[t].pc, a, s.err, pc);
    assert a == RecvGv ==> s.ch.gv;
  }

  lemma StepGv(s: State, l: Label, s': State)
    requires GroupOk(s) && ChannelsOk(s) && GvOk(s) && Step(s, l) == Some(s')
    ensures GvOk(s')
  {
    if l.Act? {
      ActGv(s, l.t, l.a, s');
    } else if l.Start? {
      assert Pc(s', Vfkit) == Pc(s, Vfkit) && Pc(s', GvProxy) == Pc(s, GvProxy);
    }
  }

  // -------------------------------------------------------------- whole runs

  ghost predicate Inv(s: State) {
    && GroupOk(s) && ParentsOk(s) && ChannelsOk(s) && StatusOk(s)
    && LogOk(s) && ConsumerOk(s) && GvOk(s)
  }

  lemma StepInv(s: State, l: Label, s': State)
    requires Inv(s) && Step(s, l) == Some(s')
    ensures Inv(s')
  {
    StepGroup(s, l, s');
    StepParents(s, l, s');
    StepChannels(s, l, s');
    StepStatus(s, l, s');
    StepLog(s, l, s');
    StepConsumer(s, l, s');
    StepGv(s, l, s');
  }

  lemma {:induction false} RunInv(ls: seq<Label>)
    requires IsRun(ls)
    ensures Inv(After(ls).value)
    decreases |ls|
  {
    if ls != [] {
      RunInv(ls[..|ls| - 1]);
      StepInv(After(ls[..|ls| - 1]).value, ls[|ls| - 1], After(ls).value);
    }
  }

  /** The events the consumer attempted, read off the run. */
  function Attempts(ls: seq<Label>): seq<Event>
    requires IsRun(ls)
    decreases |ls|
  {
    if ls == [] then [] else
      var before := After(ls[..|ls| - 1]).value;
      Attempts(ls[..|ls| - 1]) + (if ls[|ls| - 1].Consume? then [before.ev.log[before.ev.attempted]] else [])
  }

  lemma QueueGrows(s: State, l: Label, s': State)
    requires ConsumerOk(s) && Step(s, l) == Some(s')
    ensures s'.ev.attempted == s.ev.attempted + (if l.Consume? then 1 else 0)
    ensures |s.ev.log| <= |s'.ev.log| && s'.ev.log[..|s.ev.log|] == s.ev.log
  {
    if l.Act? { var _ := ActShape(s, l.t, l.a, s'); }
  }

  /** At every moment of every run, what was attempted is the part of the queue
      before `attempted`: each event once and in the order of enqueueing. */
  lemma {:induction false} AttemptsAreAPrefix(ls: seq<Label>)
    requires IsRun(ls)
    ensures var ev := After(ls).value.ev; ev.attempted <= |ev.log| && Attempts(ls) == ev.log[..ev.attempted]
    decreases |ls|
  {
    if ls != [] {
      var before := ls[..|ls| - 1];
      RunInv(before);
      AttemptsAreAPrefix(before);
      AttemptStep(After(before).value, ls[|ls| - 1], After(ls).value);
    }
  }

  lemma AttemptStep(s: State, l: Label, s': State)
    requires ConsumerOk(s) && Step(s, l) == Some(s')
    ensures var k := s.ev.attempted;
            && s'.ev.attempted <= |s'.ev.log| && (l.Consume? ==> k < |s.ev.log|)
            && s'.ev.log[..s'.ev.attempted] == s.ev.log[..k] + if l.Consume? then [s.ev.log[k]] else []
  {
    QueueGrows(s, l, s');
    PrefixSteps(s.ev.log, s'.ev.log, s.ev.attempted);
  }

  lemma PrefixSteps(log: seq<Event>, log': seq<Event>, k: nat)
    requires k <= |log| <= |log'| && log'[..|log|] == log
    ensures log'[..k] == log[..k]
    ensures k < |log| ==> log'[..k + 1] == log[..k] + [log[k]]
  {
    assert forall i :: 0 <= i < |log| ==> log'[..|log|][i] == log'[i];
  }

  /** The log of a run that got as far as waiting for the group. */
  predicate RanGroup(log: seq<Event>, apps: seq<Event>) {
    && log == [Initializing] + apps + [Failure, Exit]
    && StatusesOk(apps)
    && (Status(IgnitionProgress) in apps ==> Status(GVProxyReady) in apps)
  }

  /** What the consumer is given over a whole run: the three ways to leave. */
  ghost predicate WholeLog(log: seq<Event>) {
    || log == [Exit]
    || log == [Initializing, Exit]
    || exists apps :: RanGroup(log, apps)
  }

  lemma WholeLogOf(log: seq<Event>)
    requires log != [] && log[|log| - 1] == Exit && EndOk(log[..|log| - 1])
    requires Status(IgnitionProgress) in log ==> Status(GVProxyReady) in log
    ensures WholeLog(log)
  {
    var end := log[..|log| - 1];
    assert log == end + [Exit];
    if |end| < 2 {
      assert log == [Exit] || log == [Initializing, Exit];
    } else {
      var apps := end[1..|end| - 1];
      assert log == [Initializing] + apps + [Failure, Exit];
      StatusesInside(log, apps);
      RanIsWhole(log, apps);
    }
  }

  lemma RanIsWhole(log: seq<Event>, apps: seq<Event>)
    requires RanGroup(log, apps)
    ensures WholeLog(log)
  {
  }

  lemma StatusesInside(log: seq<Event>, apps: seq<Event>)
    requires log == [Initializing] + apps + [Failure, Exit]
    ensures forall a :: Status(a) in log <==> Status(a) in apps
  {
  }

  lemma GvAnnounced(s: State)
    requires Inv(s) && Idle(s)
    ensures Status(IgnitionProgress) in s.ev.log ==> Status(GVProxyReady) in s.ev.log
  {
    if Status(IgnitionProgress) in s.ev.log {
      assert AnnouncedAt(IgnitionProgress) == (Vfkit, 5);
    }
  }

  /** When `NotifyExit` has returned, every event of the run was attempted, once
      and in order, and together they are one of the three whole logs. */
  lemma EventLog(ls: seq<Label>)
    requires IsRun(ls) && After(ls).value.main in {Drained, Closed}
    ensures Attempts(ls) == After(ls).value.ev.log
    ensures WholeLog(Attempts(ls))
  {
    RunInv(ls);
    AttemptsAreAPrefix(ls);
    EndState(After(ls).value);
  }

  lemma EndState(s: State)
    requires Inv(s) && s.main in {Drained, Closed}
    ensures s.ev.attempted == |s.ev.log| && s.ev.log[..s.ev.attempted] == s.ev.log && WholeLog(s.ev.log)
  {
    GvAnnounced(s);
    WholeLogOf(s.ev.log);
  }

  /** What each step of a run enqueues. */
  function Enqueued(ls: seq<Label>): seq<Event> {
    if ls == [] then [] else
      Enqueued(ls[..|ls| - 1]) +
      match ls[|ls| - 1]
      case Announce => [Initializing]
      case WaitReturns => [Failure]
      case SendExit => [Exit]
      case Act(_, Notify(app)) => [Status(app)]
      case _ => []
  }

  lemma EnqueuedNext(ls: seq<Label>, l: Label, s: State, s': State)
    requires s.ev.log == Enqueued(ls) && Step(s, l) == Some(s') && (l == WaitReturns ==> s.err)
    ensures s'.ev.log == Enqueued(ls + [l])
  {
    assert (ls + [l])[..|ls|] == ls;
  }

  /** Which of its three ways `main` took out of the run. */
  ghost predicate Course(ls: seq<Label>, s: State) {
    && (s.main == Setup <==> AgentFails !in ls && AgentOk !in ls)
    && (Announce in ls <==> s.main !in {Setup, AgentUp} && AgentFails !in ls)
    && (AfterGroup(s.main) <==> AgentFails in ls || ListenFails in ls || WaitReturns in ls)
    && (ListenFails in ls ==> AgentFails !in ls && WaitReturns !in ls)
    && (WaitReturns in ls ==> AgentFails !in ls)
  }

  lemma CourseNext(ls: seq<Label>, l: Label, s: State, s': State)
    requires Course(ls, s) && GroupOk(s) && Step(s, l) == Some(s')
    ensures Course(ls + [l], s')
  {
    assert forall x :: x in ls + [l] <==> x in ls || x == l;
    if l.Act? { var _ := ActShape(s, l.t, l.a, s'); }
  }

  lemma {:induction false} RunCourse(ls: seq<Label>)
    requires IsRun(ls)
    ensures After(ls).value.ev.log == Enqueued(ls) && Course(ls, After(ls).value)
  {
    if ls != [] {
      var prev, l := ls[..|ls| - 1], ls[|ls| - 1];
      var s, s' := After(prev).value, After(ls).value;
      RunCourse(prev);
      RunInv(prev);
      WaitErr(s, l);
      EnqueuedNext(prev, l, s, s');
      CourseNext(prev, l, s, s');
      assert prev + [l] == ls;
    }
  }

  lemma WaitErr(s: State, l: Label)
    requires GroupOk(s) && Step(s, l).Some?
    ensures l == WaitReturns ==> s.err
  {
    if l == WaitReturns { BindPidEnded(s); }
  }

  lemma {:induction false} EnqueuedHas(ls: seq<Label>)
    ensures Initializing in Enqueued(ls) <==> Announce in ls
    ensures Failure in Enqueued(ls) <==> WaitReturns in ls
  {
    if ls != [] {
      var prev, l := ls[..|ls| - 1], ls[|ls| - 1];
      EnqueuedHas(prev);
      assert ls == prev + [l];
    }
  }

  /** The events attempted are what the steps of the run enqueued, and which of the
      three whole logs they are is decided by how the run ended: without an agent,
      without a ready socket, or with the group. */
  lemma EventLogByCause(ls: seq<Label>)
    requires IsRun(ls) && After(ls).value.main in {Drained, Closed}
    ensures Attempts(ls) == Enqueued(ls)
    ensures Enqueued(ls) == [Exit] <==> AgentFails in ls
    ensures Enqueued(ls) == [Initializing, Exit] <==> ListenFails in ls
    ensures (exists apps :: RanGroup(Enqueued(ls), apps)) <==> WaitReturns in ls
  {
    EventLog(ls);
    RunCourse(ls);
    EnqueuedHas(ls);
    LogKinds(Enqueued(ls));
  }

  lemma LogKinds(log: seq<Event>)
    requires WholeLog(log)
    ensures log == [Exit] <==> Initializing !in log
    ensures log == [Initializing, Exit] <==> Initializing in log && Failure !in log
    ensures (exists apps :: RanGroup(log, apps)) <==> Failure in log
  {
    if apps :| RanGroup(log, apps) {
      assert log[0] == Initializing && log[|log| - 2] == Failure;
    }
  }

  /** `g.Wait` never returns nil: the run that is left by `exit(0)` does not exist. */
  lemma GroupEndsInError(ls: seq<Label>)
    requires IsRun(ls) && Step(After(ls).value, WaitReturns).Some?
    ensures After(ls).value.err
  {
    RunInv(ls);
    BindPidEnded(After(ls).value);
  }

  /** In every run, whatever a live task is about to do: no send blocks or meets a
      closed channel, no receive gets the zero value of a closed one, and a task
      started by name was not started before. Closing leaves no task live. */
  lemma ChannelSafety(ls: seq<Label>, t: Task, a: Action)
    requires IsRun(ls)
    requires var s := After(ls).value; Live(s, t) && Next(t, s.tasks[t].pc, a, s.err).Some?
    ensures var s := After(ls).value;
            && !s.ch.closed && !s.ch.panicked && !s.ch.bogus
            && (a.SendGv? || a.SendVm? || a.SendSync? ==> Transfer(s.ch, a).Some?)
            && (Transfer(s.ch, a).Some? ==> !Transfer(s.ch, a).value.panicked && !Transfer(s.ch, a).value.bogus)
            && (a.Spawn? && !a.task.Other? ==> a.task !in s.tasks)
  {
    var s := After(ls).value;
    RunInv(ls);
    SafeAction(s, t, a);
  }

  lemma SafeAction(s: State, t: Task, a: Action)
    requires Inv(s) && Live(s, t) && Next(t, s.tasks[t].pc, a, s.err).Some?
    ensures !s.ch.closed && !s.ch.panicked && !s.ch.bogus
    ensures a.SendGv? || a.SendVm? || a.SendSync? ==> Transfer(s.ch, a).Some?
    ensures Transfer(s.ch, a).Some? ==> !Transfer(s.ch, a).value.panicked && !Transfer(s.ch, a).value.bogus
    ensures a.Spawn? && !a.task.Other? ==> a.task !in s.tasks
  {
    var pc' := Next(t, s.tasks[t].pc, a, s.err).value;
    NextFacts(t, s.tasks[t].pc, a, s.err, pc');
    ReadySenders(t, s.tasks[t].pc, a, s.err, pc');
    if a.Spawn? && !a.task.Other? {
      assert Pc(s, t) < ParentAt(a.task).1;
    }
  }

  lemma ClosedOnlyWhenIdle(ls: seq<Label>)
    requires IsRun(ls)
    ensures var s := After(ls).value; s.ch.closed ==> Idle(s) && s.main == Closed && !s.ch.panicked && !s.ch.bogus
  {
    RunInv(ls);
  }

  // ------------------------------------------------- notifications, by the steps

  /** How often a run does an action, whichever task does it. */
  function Acts(ls: seq<Label>, a: Action): nat {
    if ls == [] then 0 else
      var l := ls[|ls| - 1];
      Acts(ls[..|ls| - 1], a) + if l.Act? && l.a == a then 1 else 0
  }

  function Once(b: bool): nat { if b then 1 else 0 }

  /** Every channel holds what was sent and not received. */
  predicate QueuesCounted(ls: seq<Label>, s: State) {
    && Acts(ls, SendGv) == Acts(ls, RecvGv) + Once(s.ch.gv)
    && Acts(ls, SendVm) == Acts(ls, RecvVm) + Once(s.ch.vm)
    && Acts(ls, SendSync) == Acts(ls, RecvSync) + s.ch.syncs
  }

  /** Each ready notification is sent and received by one statement. */
  predicate TasksCounted(ls: seq<Label>, s: State) {
    && Acts(ls, SendGv) == Once(Pc(s, GvProxy) >= 1) && Acts(ls, RecvGv) == Once(Pc(s, Vfkit) >= 1)
    && Acts(ls, SendVm) == Once(Pc(s, ReadySocket) >= 1) && Acts(ls, RecvVm) == Once(Pc(s, SshForward) >= 1)
  }

  /** The statements of the tasks that pass a ready channel. */
  lemma ReadyProgram(t: Task, pc: nat, a: Action, cancelled: bool, pc': nat)
    requires Next(t, pc, a, cancelled) == Some(pc')
    ensures a == SendGv <==> t == GvProxy && pc == 0 && pc' >= 1
    ensures a == RecvGv <==> t == Vfkit && pc == 0 && pc' >= 1
    ensures a == SendVm <==> t == ReadySocket && pc == 0 && pc' >= 1
    ensures a == RecvVm ==> t == SshForward && pc == 0 && pc' >= 1
    ensures t == SshForward && pc == 0 && pc' >= 1 ==> a == RecvVm
  {
  }

  lemma TransferCounts(ch: Channels, a: Action, ch': Channels)
    requires Transfer(ch, a) == Some(ch') && !ch.closed
    ensures Once(a == SendGv) + Once(ch.gv) == Once(a == RecvGv) + Once(ch'.gv)
    ensures Once(a == SendVm) + Once(ch.vm) == Once(a == RecvVm) + Once(ch'.vm)
    ensures Once(a == SendSync) + ch.syncs == Once(a == RecvSync) + ch'.syncs
  {
  }

  /** One action moves its own task only, and starts others at the beginning. */
  lemma ActMoves(s: State, t: Task, a: Action, s': State, u: Task) returns (pc: nat)
    requires ActStep(s, t, a) == Some(s')
    ensures Next(t, Pc(s, t), a, s.err) == Some(pc)
    ensures Pc(s', u) == if u == t then pc else Pc(s, u)
    ensures Transfer(s.ch, a) == Some(s'.ch)
  {
    pc := ActShape(s, t, a, s');
  }

  lemma ActQueuesCounted(ls: seq<Label>, t: Task, a: Action, s: State, s': State)
    requires QueuesCounted(ls, s) && !s.ch.closed && ActStep(s, t, a) == Some(s')
    ensures QueuesCounted(ls + [Act(t, a)], s')
  {
    ActsOf(ls, Act(t, a));
    var _ := ActMoves(s, t, a, s', t);
    TransferCounts(s.ch, a, s'.ch);
  }

  lemma ActTasksCounted(ls: seq<Label>, t: Task, a: Action, s: State, s': State)
    requires TasksCounted(ls, s) && ActStep(s, t, a) == Some(s')
    ensures TasksCounted(ls + [Act(t, a)], s')
  {
    ActsOf(ls, Act(t, a));
    var pc := ActMoves(s, t, a, s', GvProxy);
    var _ := ActMoves(s, t, a, s', Vfkit);
    var _ := ActMoves(s, t, a, s', ReadySocket);
    var _ := ActMoves(s, t, a, s', SshForward);
    NextFacts(t, Pc(s, t), a, s.err, pc);
    ReadyProgram(t, Pc(s, t), a, s.err, pc);
  }

  lemma ActsOf(ls: seq<Label>, l: Label)
    ensures forall a: Action :: Acts(ls + [l], a) == Acts(ls, a) + Once(l.Act? && l.a == a)
  {
    forall a: Action ensures Acts(ls + [l], a) == Acts(ls, a) + Once(l.Act? && l.a == a) {
      ActsNext(ls, l, a);
    }
  }

  lemma ActsNext(ls: seq<Label>, l: Label, a: Action)
    ensures Acts(ls + [l], a) == Acts(ls, a) + Once(l.Act? && l.a == a)
  {
    assert (ls + [l])[..|ls|] == ls;
  }

  lemma OtherCounted(ls: seq<Label>, l: Label, s: State, s': State)
    requires QueuesCounted(ls, s) && TasksCounted(ls, s) && GroupOk(s) && Step(s, l) == Some(s') && !l.Act?
    ensures QueuesCounted(ls + [l], s') && TasksCounted(ls + [l], s')
  {
    ActsOf(ls, l);
    assert forall u :: Pc(s', u) == Pc(s, u);
  }

  lemma StepCounted(ls: seq<Label>, l: Label, s: State, s': State)
    requires QueuesCounted(ls, s) && TasksCounted(ls, s) && GroupOk(s) && ChannelsOk(s) && Step(s, l) == Some(s')
    ensures QueuesCounted(ls + [l], s') && TasksCounted(ls + [l], s')
  {
    if l.Act? {
      var pc := ActShape(s, l.t, l.a, s');
      assert !AfterGroup(s.main);
      ActQueuesCounted(ls, l.t, l.a, s, s');
      ActTasksCounted(ls, l.t, l.a, s, s');
    } else {
      OtherCounted(ls, l, s, s');
    }
  }

  lemma {:induction false} RunCounted(ls: seq<Label>)
    requires IsRun(ls)
    ensures QueuesCounted(ls, After(ls).value) && TasksCounted(ls, After(ls).value)
  {
    if ls != [] {
      var prev, l := ls[..|ls| - 1], ls[|ls| - 1];
      var s := After(prev).value;
      RunCounted(prev);
      RunInv(prev);
      StepCounted(prev, l, s, After(ls).value);
      assert prev + [l] == ls;
    }
  }

  /** At every moment of every run no channel was received from more often than sent
      to, and each ready notification was sent and received at most once. So the
      forward to the machine is set up only after the machine said it is ready, and the
      machine is started only after gvproxy did; and each of the two said so before it
      is announced as an event. */
  lemma NotifiedFirst(ls: seq<Label>)
    requires IsRun(ls)
    ensures Acts(ls, RecvGv) <= Acts(ls, SendGv) <= 1
    ensures Acts(ls, RecvVm) <= Acts(ls, SendVm) <= 1
    ensures Acts(ls, RecvSync) <= Acts(ls, SendSync)
    ensures var s := After(ls).value;
            && (Pc(s, SshForward) >= 1 ==> Pc(s, ReadySocket) >= 1 && Acts(ls, RecvVm) == 1)
            && (Pc(s, Vfkit) >= 1 ==> Pc(s, GvProxy) >= 1 && Acts(ls, RecvGv) == 1)
            && (Status(Ready) in s.ev.log ==> Acts(ls, SendVm) == 1)
            && (Status(GVProxyReady) in s.ev.log ==> Acts(ls, SendGv) == 1)
            && (Status(IgnitionProgress) in s.ev.log ==> Acts(ls, RecvGv) == 1)
  {
    RunInv(ls);
    RunCounted(ls);
    var s := After(ls).value;
    assert AnnouncedAt(Ready) == (ReadySocket, 2) && AnnouncedAt(GVProxyReady) == (GvProxy, 2);
    assert AnnouncedAt(IgnitionProgress) == (Vfkit, 5);
  }

  // -------------------------------------------------- a task that never returns

  lemma StaysLive(s: State, l: Label, s': State, t: Task)
    requires Live(s, t) && Step(s, l) == Some(s') && !(l.Act? && l.t == t && l.a.Return?)
    ensures Live(s', t)
  {
    if l.Act? { var _ := ActShape(s, l.t, l.a, s'); }
  }

  lemma NotYetEnded(s: State)
    requires LogOk(s) && (s.main.Starting? || s.main == Waiting)
    ensures Failure !in s.ev.log && Exit !in s.ev.log
  {
    var log := s.ev.log;
    assert forall i :: 1 <= i < |log| ==> log[1..][i - 1] == log[i];
  }

  lemma LiveTask(s: State, t: Task)
    requires GroupOk(s) && ChannelsOk(s) && Live(s, t)
    ensures (s.main.Starting? || s.main == Waiting) && !s.ch.closed && Step(s, WaitReturns) == None
  {
    assert t in s.tasks && !Idle(s);
  }

  lemma {:induction false} RunAppend(ls: seq<Label>, l: Label)
    requires IsRun(ls)
    ensures After(ls + [l]) == Step(After(ls).value, l)
  {
    assert (ls + [l])[..|ls|] == ls;
  }

  lemma {:induction false} RunPrefix(ls: seq<Label>, more: seq<Label>)
    requires IsRun(ls + more)
    ensures IsRun(ls)
    decreases |more|
  {
    if more == [] {
      assert ls + more == ls;
    } else {
      assert (ls + more)[..|ls + more| - 1] == ls + more[..|more| - 1];
      RunPrefix(ls, more[..|more| - 1]);
    }
  }

  /** As long as one task of the group does not return, such as the state forwarder
      when it is blocked, `main` does not get past `g.Wait`: neither the error nor the
      exit event is ever enqueued, and the channels stay open. */
  lemma {:induction false} UnreturnedTask(ls: seq<Label>, more: seq<Label>, t: Task)
    requires IsRun(ls + more) && IsRun(ls) && Live(After(ls).value, t)
    requires forall i :: 0 <= i < |more| ==> !(more[i].Act? && more[i].t == t && more[i].a.Return?)
    ensures var s := After(ls + more).value;
            && Live(s, t) && (s.main.Starting? || s.main == Waiting) && !s.ch.closed
            && Failure !in s.ev.log && Exit !in s.ev.log
    decreases |more|
  {
    RunInv(ls + more);
    if more == [] {
      assert ls + more == ls;
    } else {
      var prev, l := more[..|more| - 1], more[|more| - 1];
      assert ls + more == ls + prev + [l];
      RunPrefix(ls + prev, [l]);
      UnreturnedTask(ls, prev, t);
      RunAppend(ls + prev, l);
      StaysLive(After(ls + prev).value, l, After(ls + more).value, t);
    }
    LiveTask(After(ls + more).value, t);
    NotYetEnded(After(ls + more).value);
  }
}

/** The log rotation of pkg/logger: a descending loop of renames, then a new
    file. Slot 1 is `name.log`, slot k is `name.k.log`. The source keeps 5 slots;
    here `max` is any number from 2 on. */
module Rotation {
  import opened Prelude

  /** `birth` numbers the logs in the order of their creation. */
  datatype Log = Log(birth: nat, text: string)

  type Slots = map<nat, Log>

  /** What can go wrong in one `init`: `Stat` fails on the logs in the slots `unseen`,
      which are then passed over; and a rename or the open may fail. */
  datatype Fault = Fault(unseen: set<nat>, stop: Stop)

  datatype Stop = NoStop | RenameFails(slot: nat) | OpenFails

  const NO_FAULT := Fault({}, NoStop)

  function At(s: Slots, k: nat): Option<Log> {
    if k in s then Some(s[k]) else None
  }

  /** Renaming slot `i` replaces whatever slot `i + 1` held. */
  function Move(s: Slots, unseen: set<nat>, i: nat): Slots {
    if i in s && i !in unseen then (s - {i})[i + 1 := s[i]] else s
  }

  /** The loop from slot `top` down to slot `stop`. */
  function Rotate(s: Slots, unseen: set<nat>, top: nat, stop: nat): Slots
    requires 0 < stop
    decreases top
  {
    if top < stop then s else Rotate(Move(s, unseen, top), unseen, top - 1, stop)
  }

  predicate RenameFailsAt(s: Slots, max: nat, fault: Fault) {
    fault.stop.RenameFails? && 1 <= fault.stop.slot < max && fault.stop.slot in s && fault.stop.slot !in fault.unseen
  }

  predicate Succeeds(s: Slots, max: nat, fault: Fault) {
    !RenameFailsAt(s, max, fault) && fault.stop != OpenFails
  }

  /** One call of `init`. Opening slot 1 truncates a log that is still there. */
  function Init(s: Slots, max: nat, fault: Fault, newLog: Log): Slots
    requires 2 <= max
  {
    if RenameFailsAt(s, max, fault) then Rotate(s, fault.unseen, max - 1, fault.stop.slot + 1)
    else
      var r := Rotate(s, fault.unseen, max - 1, 1);
      if fault.stop == OpenFails then r else r[1 := newLog]
  }

  // ------------------------------------------------ what the loop leaves behind

  /** Whether the loop from `top` down to `stop` renames slot `i`. */
  predicate Moves(s: Slots, unseen: set<nat>, top: nat, stop: nat, i: int) {
    stop <= i <= top && i in s && i !in unseen
  }

  /** Which slot's log that loop leaves in slot `k`. */
  function Source(s: Slots, unseen: set<nat>, top: nat, stop: nat, k: nat): Option<nat> {
    if Moves(s, unseen, top, stop, k - 1) then Some((k - 1) as nat)
    else if k in s && !Moves(s, unseen, top, stop, k) then Some(k)
    else None
  }

  lemma {:induction false} RotateShifts(s: Slots, unseen: set<nat>, top: nat, stop: nat, k: nat)
    requires 0 < stop
    ensures match Source(s, unseen, top, stop, k)
            case None => k !in Rotate(s, unseen, top, stop)
            case Some(j) => k in Rotate(s, unseen, top, stop) && j in s && Rotate(s, unseen, top, stop)[k] == s[j]
    decreases top
  {
    if stop <= top {
      RotateShifts(Move(s, unseen, top), unseen, top - 1, stop, k);
    }
  }

  lemma {:induction false} RotateFurther(s: Slots, unseen: set<nat>, top: nat, i: nat)
    requires 0 < i <= top
    ensures Rotate(s, unseen, top, i) == Move(Rotate(s, unseen, top, i + 1), unseen, i)
    decreases top
  {
    if i < top {
      RotateFurther(Move(s, unseen, top), unseen, top - 1, i);
    }
  }

  class LogDir {
    var slots: Slots
    constructor ()
      ensures slots == map[]
    {
      slots := map[];
    }
  }

  class Context {
    var file: Option<nat>   // the birth of the log that is open

    constructor ()
      ensures file == None
    {
      file := None;
    }

    /** The loop of the source, with the file-system faults as a parameter. */
    method Start(dir: LogDir, max: nat, fault: Fault, newLog: Log) returns (ok: bool)
      requires 2 <= max
      modifies this, dir
      ensures dir.slots == Init(old(dir.slots), max, fault, newLog)
      ensures ok == Succeeds(old(dir.slots), max, fault)
      ensures ok <==> fault.stop != OpenFails &&
                      !exists i :: 1 <= i < max && i in old(dir.slots) && i !in fault.unseen && fault.stop == RenameFails(i)
      ensures file == if ok then Some(newLog.birth) else old(file)
    {
      var i := max - 1;
      while i > 0
        invariant 0 <= i < max
        invariant dir.slots == Rotate(old(dir.slots), fault.unseen, max - 1, i + 1)
        invariant RenameFailsAt(old(dir.slots), max, fault) ==> fault.stop.slot <= i
        invariant file == old(file)
        modifies dir
      {
        RotateShifts(old(dir.slots), fault.unseen, max - 1, i + 1, i);
        RotateFurther(old(dir.slots), fault.unseen, max - 1, i);
        if i in dir.slots && i !in fault.unseen {
          if fault.stop == RenameFails(i) {
            return false;
          }
          dir.slots := (dir.slots - {i})[i + 1 := dir.slots[i]];
        }
        i := i - 1;
      }
      if fault.stop == OpenFails {
        return false;
      }
      dir.slots := dir.slots[1 := newLog];
      file := Some(newLog.birth);
      return true;
    }
  }

  // -------------------------------------------------------- sequences of inits

  datatype Op = Restart(fault: Fault) | Append(birth: nat, text: string)

  datatype Dir = Dir(slots: Slots, next: nat)

  function Written(log: Log, birth: nat, text: string): Log {
    if log.birth == birth then log.(text := log.text + text) else log
  }

  /** A write goes to the log it was opened for, wherever that log is by now. */
  function Apply(d: Dir, op: Op, max: nat): Dir
    requires 2 <= max
  {
    match op
    case Restart(fault) =>
      Dir(Init(d.slots, max, fault, Log(d.next, "")),
          if Succeeds(d.slots, max, fault) then d.next + 1 else d.next)
    case Append(birth, text) => d.(slots := map k | k in d.slots :: Written(d.slots[k], birth, text))
  }

  function ApplyAll(ops: seq<Op>, max: nat): Dir
    requires 2 <= max
  {
    if ops == [] then Dir(map[], 0) else Apply(ApplyAll(ops[..|ops| - 1], max), ops[|ops| - 1], max)
  }

  /** Every log ever created, newest first. */
  function History(ops: seq<Op>, max: nat): seq<Log>
    requires 2 <= max
  {
    if ops == [] then [] else
      var prev, op := ops[..|ops| - 1], ops[|ops| - 1];
      var h := History(prev, max);
      match op
      case Restart(fault) =>
        if Succeeds(ApplyAll(prev, max).slots, max, fault) then [Log(|h|, "")] + h else h
      case Append(birth, text) => seq(|h|, i requires 0 <= i < |h| => Written(h[i], birth, text))
  }

  /** Slot k holds the k-th newest log, up to `max`, and there is no other slot. */
  ghost predicate Represents(s: Slots, h: seq<Log>, max: nat) {
    forall k: nat :: At(s, k) == if 1 <= k <= max && k <= |h| then Some(h[k - 1]) else None
  }

  lemma RestartRepresents(s: Slots, h: seq<Log>, max: nat, newLog: Log)
    requires 2 <= max && Represents(s, h, max)
    ensures Represents(Init(s, max, NO_FAULT, newLog), [newLog] + h, max)
  {
    var s' := Init(s, max, NO_FAULT, newLog);
    forall k: nat
      ensures At(s', k) == if 1 <= k <= max && k <= |h| + 1 then Some(([newLog] + h)[k - 1]) else None
    {
      RotateShifts(s, {}, max - 1, 1, k);
      assert At(s, k) == if 1 <= k <= max && k <= |h| then Some(h[k - 1]) else None;
      if k > 0 {
        assert At(s, k - 1) == if 1 <= k - 1 <= max && k - 1 <= |h| then Some(h[k - 2]) else None;
      }
    }
  }

  lemma AppendRepresents(s: Slots, h: seq<Log>, max: nat, birth: nat, text: string)
    requires Represents(s, h, max)
    ensures Represents(map k | k in s :: Written(s[k], birth, text),
                       seq(|h|, i requires 0 <= i < |h| => Written(h[i], birth, text)), max)
  {
    var s' := map k | k in s :: Written(s[k], birth, text);
    forall k: nat
      ensures At(s', k) == if 1 <= k <= max && k <= |h| then Some(Written(h[k - 1], birth, text)) else None
    {
      assert At(s, k) == if 1 <= k <= max && k <= |h| then Some(h[k - 1]) else None;
    }
  }

  /** After any number of successful inits with any writes between them, the
      directory is the newest-first history cut at `max`. */
  lemma {:induction false} RotationIsHistory(ops: seq<Op>, max: nat)
    requires 2 <= max
    requires forall i :: 0 <= i < |ops| ==> ops[i].Append? || ops[i].fault == NO_FAULT
    ensures Represents(ApplyAll(ops, max).slots, History(ops, max), max)
    ensures ApplyAll(ops, max).next == |History(ops, max)|
  {
    if ops != [] {
      var prev, op := ops[..|ops| - 1], ops[|ops| - 1];
      RotationIsHistory(prev, max);
      var d, h := ApplyAll(prev, max), History(prev, max);
      match op
      case Restart(fault) =>
        RestartRepresents(d.slots, h, max, Log(d.next, ""));
      case Append(birth, text) =>
        AppendRepresents(d.slots, h, max, birth, text);
    }
  }

  /** The number of logs created is the number of restarts. */
  lemma {:induction false} HistoryLength(ops: seq<Op>, max: nat)
    requires 2 <= max
    requires forall i :: 0 <= i < |ops| ==> ops[i].Append? || ops[i].fault == NO_FAULT
    ensures |History(ops, max)| == Restarts(ops)
  {
    if ops != [] {
      HistoryLength(ops[..|ops| - 1], max);
    }
  }

  function Restarts(ops: seq<Op>): nat {
    if ops == [] then 0 else Restarts(ops[..|ops| - 1]) + if ops[|ops| - 1].Restart? then 1 else 0
  }

  // -------------------------------------------------------- inits that may fail

  /** Strictly newer logs in lower slots, all slots within 1 to `max`. */
  ghost predicate Ordered(d: Dir, max: nat) {
    && (forall k :: k in d.slots ==> 1 <= k <= max && d.slots[k].birth < d.next)
    && (forall j, k :: j in d.slots && k in d.slots && j < k ==> d.slots[j].birth > d.slots[k].birth)
  }

  function LastMoved(s: Slots, max: nat, fault: Fault): nat {
    if RenameFailsAt(s, max, fault) then fault.stop.slot + 1 else 1
  }

  lemma InitSource(s: Slots, max: nat, fault: Fault, newLog: Log, k: nat)
    requires 2 <= max
    ensures var s' := Init(s, max, fault, newLog);
            if k == 1 && Succeeds(s, max, fault) then At(s', k) == Some(newLog)
            else match Source(s, fault.unseen, max - 1, LastMoved(s, max, fault), k)
                 case None => k !in s'
                 case Some(j) => k in s' && j in s && s'[k] == s[j]
  {
    RotateShifts(s, fault.unseen, max - 1, LastMoved(s, max, fault), k);
  }

  lemma RestartOrdered(d: Dir, max: nat, fault: Fault)
    requires 2 <= max && Ordered(d, max)
    ensures Ordered(Apply(d, Restart(fault), max), max)
  {
    var d' := Apply(d, Restart(fault), max);
    var newLog := Log(d.next, "");
    forall k | k in d'.slots ensures 1 <= k <= max && d'.slots[k].birth < d'.next {
      InitSource(d.slots, max, fault, newLog, k);
    }
    forall j, k | j in d'.slots && k in d'.slots && j < k
      ensures d'.slots[j].birth > d'.slots[k].birth
    {
      InitSource(d.slots, max, fault, newLog, j);
      InitSource(d.slots, max, fault, newLog, k);
    }
  }

  /** For any mix of writes, successful inits and inits that pass over any logs or
      fail at any rename or at the open, the slots stay strictly ordered from newest to oldest. */
  lemma {:induction false} AlwaysOrdered(ops: seq<Op>, max: nat)
    requires 2 <= max
    ensures Ordered(ApplyAll(ops, max), max)
  {
    if ops != [] {
      var prev, op := ops[..|ops| - 1], ops[|ops| - 1];
      AlwaysOrdered(prev, max);
      if op.Restart? {
        RestartOrdered(ApplyAll(prev, max), max, op.fault);
      }
    }
  }

  // ---------------------------------------------------- what is in the logs

  /** What was written to the log with this birth, once it was created. */
  function TextOf(ops: seq<Op>, max: nat, birth: nat): string
    requires 2 <= max
  {
    if ops == [] then "" else
      var prev, op := ops[..|ops| - 1], ops[|ops| - 1];
      TextOf(prev, max, birth) +
      if op.Append? && op.birth == birth && birth < ApplyAll(prev, max).next then op.text else ""
  }

  lemma {:induction false} Unborn(ops: seq<Op>, max: nat, birth: nat)
    requires 2 <= max && ApplyAll(ops, max).next <= birth
    ensures TextOf(ops, max, birth) == ""
  {
    if ops != [] {
      Unborn(ops[..|ops| - 1], max, birth);
    }
  }

  ghost predicate Texts(d: Dir, ops: seq<Op>, max: nat)
    requires 2 <= max
  {
    forall k :: k in d.slots ==> d.slots[k].text == TextOf(ops, max, d.slots[k].birth)
  }

  lemma RestartTexts(ops: seq<Op>, d: Dir, max: nat, fault: Fault)
    requires 2 <= max && d == ApplyAll(ops, max) && Texts(d, ops, max)
    ensures Texts(Apply(d, Restart(fault), max), ops + [Restart(fault)], max)
  {
    var d' := Apply(d, Restart(fault), max);
    assert (ops + [Restart(fault)])[..|ops|] == ops;
    Unborn(ops, max, d.next);
    forall k | k in d'.slots ensures d'.slots[k].text == TextOf(ops + [Restart(fault)], max, d'.slots[k].birth) {
      InitSource(d.slots, max, fault, Log(d.next, ""), k);
    }
  }

  lemma AppendTexts(ops: seq<Op>, d: Dir, max: nat, birth: nat, text: string)
    requires 2 <= max && d == ApplyAll(ops, max) && Texts(d, ops, max) && Ordered(d, max)
    ensures Texts(Apply(d, Append(birth, text), max), ops + [Append(birth, text)], max)
  {
    var all := ops + [Append(birth, text)];
    assert all[..|ops|] == ops;
    var d' := Apply(d, Append(birth, text), max);
    forall k | k in d'.slots ensures d'.slots[k].text == TextOf(all, max, d'.slots[k].birth) {
      assert d.slots[k].text == TextOf(ops, max, d.slots[k].birth) && d.slots[k].birth < d.next;
    }
  }

  /** In every directory, whatever went wrong before, each log holds exactly what was
      written to it. */
  lemma {:induction false} LogsHoldTheirTexts(ops: seq<Op>, max: nat)
    requires 2 <= max
    ensures Texts(ApplyAll(ops, max), ops, max)
  {
    if ops != [] {
      var prev, op := ops[..|ops| - 1], ops[|ops| - 1];
      LogsHoldTheirTexts(prev, max);
      AlwaysOrdered(prev, max);
      assert prev + [op] == ops;
      match op
      case Restart(fault) => RestartTexts(prev, ApplyAll(prev, max), max, fault);
      case Append(birth, text) => AppendTexts(prev, ApplyAll(prev, max), max, birth, text);
    }
  }

  /** Newest first, from the latest birth down to 0. */
  predicate Births(h: seq<Log>) { forall i :: 0 <= i < |h| ==> h[i].birth == |h| - 1 - i }

  lemma {:induction false} HistoryBirths(ops: seq<Op>, max: nat)
    requires 2 <= max
    ensures Births(History(ops, max))
  {
    if ops != [] {
      HistoryBirths(ops[..|ops| - 1], max);
      BirthsNext(History(ops[..|ops| - 1], max), History(ops, max));
    }
  }

  lemma BirthsNext(before: seq<Log>, h: seq<Log>)
    requires Births(before)
    requires (|h| == |before| && forall i :: 0 <= i < |h| ==> h[i].birth == before[i].birth)
          || (|h| == |before| + 1 && h[1..] == before && h[0].birth == |before|)
    ensures Births(h)
  {
    assert |h| == |before| + 1 ==> forall i :: 1 <= i < |h| ==> h[i] == h[1..][i - 1];
  }

  /** After n successful starts with any writes between them, slot k holds the k-th
      newest log, with everything that was written to it, for every k up to n and
      `max`, and there is no other slot. */
  lemma SlotsExactly(ops: seq<Op>, max: nat, k: nat)
    requires 2 <= max
    requires forall i :: 0 <= i < |ops| ==> ops[i].Append? || ops[i].fault == NO_FAULT
    ensures var n, slots := Restarts(ops), ApplyAll(ops, max).slots;
            && (k in slots <==> 1 <= k <= max && k <= n)
            && (k in slots ==> slots[k] == Log(n - k, TextOf(ops, max, n - k)))
  {
    RotationIsHistory(ops, max);
    HistoryLength(ops, max);
    HistoryBirths(ops, max);
    LogsHoldTheirTexts(ops, max);
    var slots, h := ApplyAll(ops, max).slots, History(ops, max);
    assert At(slots, k) == if 1 <= k <= max && k <= |h| then Some(h[k - 1]) else None;
  }

  predicate Keeps(s: Slots, log: Log) {
    exists k :: k in s && s[k] == log
  }

  /** Whether slot `i` is renamed in one `init`: seen, and no rename before failed. */
  predicate Renamed(s: Slots, max: nat, fault: Fault, i: nat) {
    && 1 <= i < max && i in s && i !in fault.unseen
    && !(RenameFailsAt(s, max, fault) && i <= fault.stop.slot)
  }

  /** One `init`, faulty or not, loses a log exactly when its own slot is the last or
      could not be looked at, and the slot before is renamed onto it or, for slot 1,
      the new log is opened over it. */
  lemma DiscardsExactly(d: Dir, max: nat, fault: Fault, j: nat)
    requires 2 <= max && Ordered(d, max) && j in d.slots
    ensures !Keeps(Apply(d, Restart(fault), max).slots, d.slots[j]) <==>
            && (j == max || j in fault.unseen)
            && if j == 1 then Succeeds(d.slots, max, fault) else Renamed(d.slots, max, fault, j - 1)
  {
    var s := d.slots;
    var newLog := Log(d.next, "");
    var s' := Init(s, max, fault, newLog);
    assert 1 <= j <= max;
    if Renamed(s, max, fault, j) {
      InitSource(s, max, fault, newLog, j + 1);
      assert j + 1 in s' && s'[j + 1] == s[j];
    } else if !(if j == 1 then Succeeds(s, max, fault) else Renamed(s, max, fault, j - 1)) {
      InitSource(s, max, fault, newLog, j);
      assert j in s' && s'[j] == s[j];
    } else {
      forall k | k in s' ensures s'[k] != s[j] {
        InitSource(s, max, fault, newLog, k);
      }
    }
  }

  /** So one failing `Stat` can cost the newest log. */
  lemma StatErrorLosesNewest(d: Dir, max: nat)
    requires 2 <= max && Ordered(d, max) && 1 in d.slots
    ensures !Keeps(Apply(d, Restart(Fault({1}, NoStop)), max).slots, d.slots[1])
  {
    DiscardsExactly(d, max, Fault({1}, NoStop), 1);
  }

  /** When every log can be looked at, a start loses at most the one in the last slot. */
  lemma DiscardsOnlyLast(d: Dir, max: nat, fault: Fault, j: nat)
    requires 2 <= max && Ordered(d, max) && j in d.slots && fault.unseen == {}
    ensures !Keeps(Apply(d, Restart(fault), max).slots, d.slots[j]) <==>
            j == max && max - 1 in d.slots && fault.stop != RenameFails(max - 1)
  {
    DiscardsExactly(d, max, fault, j);
  }
}

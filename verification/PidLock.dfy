/** The PID lock file of pkg/pidlock: `TryLock`, `Unlock` and `Owner` as the
    system calls they make, interleaved freely between any number of contexts. */
module PidLock {
  import opened Prelude
  import opened Text

  /** Where a context stands in its one `TryLock` and its `Unlock` calls.
      `Refused` and `Broken` are the two failed ends of `TryLock`: the file is
      left open there, and `Broken` still owns the lock. */
  datatype Pc = Opened | Locked | Holding | Refused | Broken | Unlocked | Closed | Dead

  /** A context and the open file behind it. `epoch` is a history variable: how
      many `RemoveAll` calls had happened when the file was opened. */
  datatype Ctx = Ctx(pid: nat, ino: nat, pc: Pc, holds: bool, epoch: nat)

  /** `path` is the inode the lock path names, `inodes` their contents. */
  datatype State = State(path: Option<nat>, inodes: seq<string>, ctxs: map<nat, Ctx>, removals: nat)

  datatype Label =
    | Open(c: nat, pid: nat)
    | Flock(c: nat)
    | FlockFails(c: nat)
    | Write(c: nat)
    | WriteFails(c: nat, n: nat)   // only the first n characters arrive
    | FlockUn(c: nat, ok: bool)
    | Close(c: nat)
    | RemoveAll(c: nat)
    | Die(c: nat)                  // process exit, or the finalizer closing a leaked file

  const INIT := State(None, [], map[], 0)

  /** Writing at offset 0 of a file that is not truncated. */
  function Overwrite(was: string, text: string): string {
    if |was| <= |text| then text else text + was[|text|..]
  }

  predicate Free(s: State, ino: nat) {
    forall d :: d in s.ctxs && s.ctxs[d].holds ==> s.ctxs[d].ino != ino
  }

  predicate At(s: State, c: nat, pc: Pc) {
    c in s.ctxs && s.ctxs[c].pc == pc
  }

  function Goto(s: State, c: nat, pc: Pc, holds: bool): State
    requires c in s.ctxs
  {
    s.(ctxs := s.ctxs[c := s.ctxs[c].(pc := pc, holds := holds)])
  }

  function Put(s: State, c: nat, text: string): State
    requires c in s.ctxs
  {
    var i := s.ctxs[c].ino;
    if i < |s.inodes| then s.(inodes := s.inodes[i := Overwrite(s.inodes[i], text)]) else s
  }

  /** One system call; `None` when the context is not at that call. */
  function Step(s: State, l: Label): Option<State> {
    match l
    case Open(c, pid) =>
      if c in s.ctxs || pid == 0 then None else
      (match s.path
       case Some(i) => Some(s.(ctxs := s.ctxs[c := Ctx(pid, i, Opened, false, s.removals)]))
       case None =>
         var i := |s.inodes|;
         Some(s.(path := Some(i), inodes := s.inodes + [""],
                 ctxs := s.ctxs[c := Ctx(pid, i, Opened, false, s.removals)])))
    case Flock(c) =>
      if At(s, c, Opened) && Free(s, s.ctxs[c].ino) then Some(Goto(s, c, Locked, true)) else None
    case FlockFails(c) =>
      if At(s, c, Opened) then Some(Goto(s, c, Refused, false)) else None
    case Write(c) =>
      if At(s, c, Locked) then Some(Goto(Put(s, c, Decimal(s.ctxs[c].pid)), c, Holding, true)) else None
    case WriteFails(c, n) =>
      if At(s, c, Locked) && n <= |Decimal(s.ctxs[c].pid)|
      then Some(Goto(Put(s, c, Decimal(s.ctxs[c].pid)[..n]), c, Broken, true)) else None
    case FlockUn(c, ok) =>
      if At(s, c, Holding) then Some(Goto(s, c, Unlocked, !ok)) else None
    case Close(c) =>
      if At(s, c, Unlocked) then Some(Goto(s, c, Closed, false)) else None
    case RemoveAll(c) =>
      if At(s, c, Closed) then Some(s.(path := None, removals := s.removals + 1)) else None
    case Die(c) =>
      if c in s.ctxs then Some(Goto(s, c, Dead, false)) else None
  }

  /** The state after a sequence of calls; `None` when it is not a run. */
  function After(ls: seq<Label>): Option<State> {
    if ls == [] then Some(INIT) else
      match After(ls[..|ls| - 1])
      case None => None
      case Some(s) => Step(s, ls[|ls| - 1])
  }

  predicate IsRun(ls: seq<Label>) { After(ls).Some? }

  function Removals(ls: seq<Label>): nat {
    if ls == [] then 0 else
      Removals(ls[..|ls| - 1]) + if ls[|ls| - 1].RemoveAll? then 1 else 0
  }

  function Holders(s: State): set<nat> {
    set c | c in s.ctxs && s.ctxs[c].holds
  }

  // ---------------------------------------------------------------- safety

  predicate CtxOk(s: State, x: Ctx) {
    && x.pid > 0 && x.ino < |s.inodes| && x.epoch <= s.removals
    && (x.epoch == s.removals <==> s.path == Some(x.ino))
    && LockFits(x.pc, x.holds)
  }

  predicate LockFits(pc: Pc, holds: bool) {
    && (pc in {Opened, Refused, Closed, Dead} ==> !holds)
    && (pc in {Locked, Holding, Broken} ==> holds)
  }

  /** Both own a lock, and on the same inode. */
  predicate HoldsOn(s: State, c: nat, d: nat) {
    && c in s.ctxs && d in s.ctxs && s.ctxs[c].holds && s.ctxs[d].holds
    && s.ctxs[c].ino == s.ctxs[d].ino
  }

  ghost predicate Tracked(s: State) {
    && (s.path.Some? ==> s.path.value < |s.inodes|)
    && (forall c :: c in s.ctxs ==> CtxOk(s, s.ctxs[c]))
    && (forall c, d :: c in s.ctxs && d in s.ctxs ==>
                         (s.ctxs[c].epoch == s.ctxs[d].epoch <==> s.ctxs[c].ino == s.ctxs[d].ino))
  }

  ghost predicate Exclusive(s: State) {
    forall c, d :: HoldsOn(s, c, d) ==> c == d
  }

  ghost predicate Inv(s: State) { Tracked(s) && Exclusive(s) }

  lemma GotoTracked(s: State, c: nat, pc: Pc, holds: bool)
    requires Tracked(s) && c in s.ctxs && LockFits(pc, holds)
    ensures Tracked(Goto(s, c, pc, holds))
  {
    var s' := Goto(s, c, pc, holds);
    forall d | d in s'.ctxs ensures CtxOk(s', s'.ctxs[d]) {
      assert CtxOk(s, s.ctxs[d]);
    }
  }

  lemma PutTracked(s: State, c: nat, text: string)
    requires Tracked(s) && c in s.ctxs
    ensures Tracked(Put(s, c, text)) && Put(s, c, text).ctxs == s.ctxs
  {
    forall d | d in s.ctxs ensures CtxOk(Put(s, c, text), s.ctxs[d]) {
      assert CtxOk(s, s.ctxs[d]);
    }
  }

  lemma OpenTracked(s: State, c: nat, pid: nat)
    requires Tracked(s) && c !in s.ctxs && 0 < pid
    ensures Tracked(Step(s, Open(c, pid)).value)
  {
    var s' := Step(s, Open(c, pid)).value;
    forall d | d in s'.ctxs ensures CtxOk(s', s'.ctxs[d]) {
      assert d != c ==> CtxOk(s, s.ctxs[d]);
    }
  }

  lemma StepTracked(s: State, l: Label, s': State)
    requires Tracked(s) && Step(s, l) == Some(s')
    ensures Tracked(s') && s'.removals == s.removals + if l.RemoveAll? then 1 else 0
  {
    match l
    case Open(c, pid) => OpenTracked(s, c, pid);
    case RemoveAll(_) =>
    case Write(c) =>
      PutTracked(s, c, Decimal(s.ctxs[c].pid));
      GotoTracked(Put(s, c, Decimal(s.ctxs[c].pid)), c, Holding, true);
    case WriteFails(c, n) =>
      PutTracked(s, c, Decimal(s.ctxs[c].pid)[..n]);
      GotoTracked(Put(s, c, Decimal(s.ctxs[c].pid)[..n]), c, Broken, true);
    case _ => GotoTracked(s, l.c, s'.ctxs[l.c].pc, s'.ctxs[l.c].holds);
  }

  lemma StepExclusive(s: State, l: Label, s': State)
    requires Tracked(s) && Exclusive(s) && Step(s, l) == Some(s')
    ensures Exclusive(s')
  {
    forall c: nat, d: nat | HoldsOn(s', c, d) ensures c == d {
      if !HoldsOn(s, c, d) {
        assert l.Flock? && l.c in {c, d};
      }
    }
  }

  lemma EpochsDiffer(s: State, c: nat, d: nat)
    requires Inv(s) && c in Holders(s) && d in Holders(s) && s.ctxs[c].epoch == s.ctxs[d].epoch
    ensures c == d
  {
    assert HoldsOn(s, c, d);
  }

  lemma {:induction false} RunInv(ls: seq<Label>)
    requires IsRun(ls)
    ensures Inv(After(ls).value) && After(ls).value.removals == Removals(ls)
  {
    if ls != [] {
      RunInv(ls[..|ls| - 1]);
      var s, l := After(ls[..|ls| - 1]).value, ls[|ls| - 1];
      StepTracked(s, l, After(ls).value);
      StepExclusive(s, l, After(ls).value);
    }
  }

  /** The call that opened context `c`'s file. */
  predicate OpensAt(ls: seq<Label>, c: nat, k: nat) {
    k < |ls| && ls[k].Open? && ls[k].c == c
  }

  lemma StepOpens(s: State, l: Label, s': State, c: nat)
    requires Step(s, l) == Some(s') && c in s'.ctxs
    ensures c in s.ctxs ==> s'.ctxs[c].epoch == s.ctxs[c].epoch && !(l.Open? && l.c == c)
    ensures c !in s.ctxs ==> l.Open? && l.c == c && s'.ctxs[c].epoch == s.removals
  {
  }

  /** Every context of a run was opened by exactly one call. */
  lemma {:induction false} OpenedOnce(ls: seq<Label>, c: nat) returns (k: nat)
    requires IsRun(ls) && c in After(ls).value.ctxs
    ensures OpensAt(ls, c, k) && After(ls).value.ctxs[c].epoch == Removals(ls[..k])
    ensures forall j :: OpensAt(ls, c, j) ==> j == k
  {
    var prev := ls[..|ls| - 1];
    var s := After(prev).value;
    StepOpens(s, ls[|ls| - 1], After(ls).value, c);
    if c in s.ctxs {
      k := OpenedOnce(prev, c);
      assert ls[..k] == prev[..k];
      forall j | OpensAt(ls, c, j) ensures j == k {
        assert OpensAt(prev, c, j);
      }
    } else {
      k := |ls| - 1;
      RunInv(prev);
      forall j: nat | j < |prev| ensures !OpensAt(prev, c, j) {
        if OpensAt(prev, c, j) {
          Remembered(prev, c, j);
        }
      }
      assert forall j: nat :: OpensAt(ls, c, j) && j < |prev| ==> OpensAt(prev, c, j);
    }
  }

  lemma {:induction false} Remembered(ls: seq<Label>, c: nat, j: nat)
    requires IsRun(ls) && OpensAt(ls, c, j)
    ensures c in After(ls).value.ctxs
  {
    if j < |ls| - 1 {
      Remembered(ls[..|ls| - 1], c, j);
    }
  }

  /** A larger count means that a `RemoveAll` happened in between. */
  lemma {:induction false} RemovalBetween(ls: seq<Label>, j: nat, k: nat) returns (m: nat)
    requires j <= k <= |ls| && Removals(ls[..j]) < Removals(ls[..k])
    ensures j <= m < k && ls[m].RemoveAll?
  {
    assert ls[..k][..k - 1] == ls[..k - 1];
    if ls[k - 1].RemoveAll? {
      m := k - 1;
    } else {
      m := RemovalBetween(ls, j, k - 1);
    }
  }

  lemma {:induction false} RemovalsGrow(ls: seq<Label>, j: nat, k: nat)
    requires j <= k <= |ls|
    ensures Removals(ls[..j]) <= Removals(ls[..k])
  {
    if j < k {
      assert ls[..k][..k - 1] == ls[..k - 1];
      RemovalsGrow(ls, j, k - 1);
    }
  }

  ghost predicate RemovalSeparates(ls: seq<Label>, c: nat, d: nat) {
    exists j: nat, k: nat, m: nat :: OpensAt(ls, c, j) && OpensAt(ls, d, k) && m < |ls| && ls[m].RemoveAll?
                      && (j < m < k || k < m < j)
  }

  /** Two contexts that own locks at the same time were opened on different sides
      of a `RemoveAll`. */
  lemma HoldersSeparated(ls: seq<Label>, c: nat, d: nat)
    requires IsRun(ls)
    requires c in Holders(After(ls).value) && d in Holders(After(ls).value) && c != d
    ensures RemovalSeparates(ls, c, d)
  {
    RunInv(ls);
    var s := After(ls).value;
    if s.ctxs[c].epoch == s.ctxs[d].epoch {
      EpochsDiffer(s, c, d);
    }
    var j := OpenedOnce(ls, c);
    var k := OpenedOnce(ls, d);
    SeparatedBy(ls, c, d, j, k);
  }

  lemma SeparatedBy(ls: seq<Label>, c: nat, d: nat, j: nat, k: nat)
    requires OpensAt(ls, c, j) && OpensAt(ls, d, k) && Removals(ls[..j]) != Removals(ls[..k])
    ensures RemovalSeparates(ls, c, d)
  {
    var lo, hi := if j <= k then j else k, if j <= k then k else j;
    RemovalsGrow(ls, lo, hi);
    var m := RemovalBetween(ls, lo, hi);
    assert m != lo;
    assert OpensAt(ls, c, j) && OpensAt(ls, d, k) && ls[m].RemoveAll?;
  }

  /** Somebody unlinked the path after context `c` opened its file. */
  ghost predicate UnlinkedSince(ls: seq<Label>, c: nat) {
    exists j: nat, m: nat :: OpensAt(ls, c, j) && j < m < |ls| && ls[m].RemoveAll?
  }

  lemma RemovalCounted(ls: seq<Label>, j: nat, m: nat)
    requires j <= m < |ls| && ls[m].RemoveAll?
    ensures Removals(ls[..j]) < Removals(ls)
  {
    RemovalsGrow(ls, j, m);
    assert ls[..m + 1][..m] == ls[..m];
    RemovalsGrow(ls, m + 1, |ls|);
    assert ls[..|ls|] == ls;
  }

  /** After every run the path names the file a context opened exactly when nobody
      unlinked it since: only then does its lock keep others out. */
  lemma NamedExactly(ls: seq<Label>, c: nat)
    requires IsRun(ls) && c in After(ls).value.ctxs
    ensures After(ls).value.path == Some(After(ls).value.ctxs[c].ino) <==> !UnlinkedSince(ls, c)
  {
    RunInv(ls);
    var k := OpenedOnce(ls, c);
    SinceOpening(ls, c, k);
    assert CtxOk(After(ls).value, After(ls).value.ctxs[c]);
  }

  lemma SinceOpening(ls: seq<Label>, c: nat, k: nat)
    requires OpensAt(ls, c, k) && forall j :: OpensAt(ls, c, j) ==> j == k
    ensures Removals(ls[..k]) == Removals(ls) <==> !UnlinkedSince(ls, c)
  {
    assert ls[..|ls|] == ls;
    RemovalsGrow(ls, k, |ls|);
    if Removals(ls[..k]) < Removals(ls) {
      var m := RemovalBetween(ls, k, |ls|);
      assert OpensAt(ls, c, k) && k < m < |ls| && ls[m].RemoveAll?;
    }
    if UnlinkedSince(ls, c) {
      var j: nat, m: nat :| OpensAt(ls, c, j) && j < m < |ls| && ls[m].RemoveAll?;
      RemovalCounted(ls, j, m);
    }
  }

  /** The path names a file on which some context holds the lock. */
  ghost predicate NamesHeldFile(s: State) {
    exists d :: d in Holders(s) && s.path == Some(s.ctxs[d].ino)
  }

  /** `Unlock` unlinks whatever the path names. In every run that is a file which
      another context holds exactly when some holder's file was not unlinked since it
      opened it; and it is not even this context's own file exactly when that one was
      unlinked since. */
  lemma UnlinkHits(ls: seq<Label>, c: nat)
    requires IsRun(ls) && At(After(ls).value, c, Closed)
    ensures var s := After(ls).value;
            && Step(s, RemoveAll(c)) == Some(s.(path := None, removals := s.removals + 1))
            && c !in Holders(s)
            && (NamesHeldFile(s) <==> exists d :: d in Holders(s) && !UnlinkedSince(ls, d))
            && (s.path.Some? ==> (s.path.value != s.ctxs[c].ino <==> UnlinkedSince(ls, c)))
  {
    NamedExactly(ls, c);
    RunInv(ls);
    var s := After(ls).value;
    assert CtxOk(s, s.ctxs[c]);
    forall d | d in Holders(s) ensures s.path == Some(s.ctxs[d].ino) <==> !UnlinkedSince(ls, d) {
      NamedExactly(ls, d);
    }
  }

  /** Contexts with different epochs below `n` number at most `n`. */
  lemma {:induction false} EpochPigeonhole(s: State, hs: set<nat>, n: nat)
    requires hs <= s.ctxs.Keys
    requires forall c :: c in hs ==> s.ctxs[c].epoch < n
    requires forall c, d :: c in hs && d in hs && s.ctxs[c].epoch == s.ctxs[d].epoch ==> c == d
    ensures |hs| <= n
  {
    if hs != {} {
      if c :| c in hs && s.ctxs[c].epoch == n - 1 {
        EpochPigeonhole(s, hs - {c}, n - 1);
      } else {
        var c :| c in hs;
        assert s.ctxs[c].epoch < n - 1;
        EpochPigeonhole(s, hs, n - 1);
      }
    }
  }

  /** Mutual exclusion, as far as this protocol gives it, after every run: the
      inode that the path names has at most one holder, there is at most one
      holder more than there were `RemoveAll` calls, and so at most one holder in
      a run where contexts only die and never unlock. */
  lemma MutualExclusion(ls: seq<Label>)
    requires IsRun(ls)
    ensures var s := After(ls).value;
            && (forall c, d :: HoldsOn(s, c, d) && s.path == Some(s.ctxs[c].ino) ==> c == d)
            && |Holders(s)| <= 1 + Removals(ls)
            && ((forall i :: 0 <= i < |ls| ==> !ls[i].RemoveAll?) ==> |Holders(s)| <= 1)
  {
    RunInv(ls);
    var s := After(ls).value;
    forall c, d | c in Holders(s) && d in Holders(s) && s.ctxs[c].epoch == s.ctxs[d].epoch
      ensures c == d
    {
      EpochsDiffer(s, c, d);
    }
    EpochPigeonhole(s, Holders(s), s.removals + 1);
    if forall i :: 0 <= i < |ls| ==> !ls[i].RemoveAll? {
      NoRemovals(ls);
    }
  }

  lemma {:induction false} NoRemovals(ls: seq<Label>)
    ensures Removals(ls) == 0 <==> forall i :: 0 <= i < |ls| ==> !ls[i].RemoveAll?
  {
    if ls != [] {
      var prev := ls[..|ls| - 1];
      NoRemovals(prev);
      assert forall i :: 0 <= i < |prev| ==> prev[i] == ls[i];
    }
  }

  // ------------------------------------------- the run, told by its calls alone

  /** The last call of a context, and what it opened its file with. */
  function LastOf(ls: seq<Label>, c: nat): Option<Label> {
    if ls == [] then None
    else if ls[|ls| - 1].c == c then Some(ls[|ls| - 1]) else LastOf(ls[..|ls| - 1], c)
  }

  function PidOf(ls: seq<Label>, c: nat): nat {
    if ls == [] then 0
    else if ls[|ls| - 1].Open? && ls[|ls| - 1].c == c then ls[|ls| - 1].pid else PidOf(ls[..|ls| - 1], c)
  }

  /** How often the path had been unlinked when the context opened it. */
  function EpochOf(ls: seq<Label>, c: nat): nat {
    if ls == [] then 0
    else if ls[|ls| - 1].Open? && ls[|ls| - 1].c == c then Removals(ls[..|ls| - 1]) else EpochOf(ls[..|ls| - 1], c)
  }

  /** Whether a context whose last call this is owns a lock. */
  predicate OwnsAfter(last: Label) {
    last.Flock? || last.Write? || last.WriteFails? || (last.FlockUn? && !last.ok)
  }

  predicate Owns(ls: seq<Label>, d: nat) { LastOf(ls, d).Some? && OwnsAfter(LastOf(ls, d).value) }

  /** When a call can come next: each context goes through its calls in order, and
      takes the lock only when no owner opened the path between the same two unlinks. */
  ghost predicate Allowed(ls: seq<Label>, l: Label) {
    if LastOf(ls, l.c) == None then l.Open? && l.pid > 0 else
    var last := LastOf(ls, l.c).value;
    match l
    case Open(_, _) => false
    case Flock(c) => last.Open? && forall d :: Owns(ls, d) ==> EpochOf(ls, d) != EpochOf(ls, c)
    case FlockFails(_) => last.Open?
    case Write(_) => last.Flock?
    case WriteFails(c, n) => last.Flock? && n <= |Decimal(PidOf(ls, c))|
    case FlockUn(_, _) => last.Write?
    case Close(_) => last.FlockUn?
    case RemoveAll(_) => last.Close? || last.RemoveAll?
    case Die(_) => true
  }

  function PcAfter(last: Label): Pc {
    match last
    case Open(_, _) => Opened
    case Flock(_) => Locked
    case FlockFails(_) => Refused
    case Write(_) => Holding
    case WriteFails(_, _) => Broken
    case FlockUn(_, _) => Unlocked
    case Close(_) => Closed
    case RemoveAll(_) => Closed
    case Die(_) => Dead
  }

  ghost predicate Told(ls: seq<Label>, s: State, c: nat) {
    if c !in s.ctxs then LastOf(ls, c) == None
    else
      && LastOf(ls, c).Some? && s.ctxs[c].pc == PcAfter(LastOf(ls, c).value)
      && s.ctxs[c].holds == OwnsAfter(LastOf(ls, c).value)
      && s.ctxs[c].pid == PidOf(ls, c) && s.ctxs[c].epoch == EpochOf(ls, c)
  }

  lemma LastNext(ls: seq<Label>, l: Label, c: nat)
    ensures LastOf(ls + [l], c) == if l.c == c then Some(l) else LastOf(ls, c)
    ensures PidOf(ls + [l], c) == if l.Open? && l.c == c then l.pid else PidOf(ls, c)
    ensures EpochOf(ls + [l], c) == if l.Open? && l.c == c then Removals(ls) else EpochOf(ls, c)
  {
    assert (ls + [l])[..|ls|] == ls;
  }

  /** One call changes its own context only. */
  lemma StepOwn(s: State, l: Label, s': State, c: nat)
    requires Step(s, l) == Some(s')
    ensures c != l.c ==> (c in s.ctxs <==> c in s'.ctxs) && (c in s.ctxs ==> s'.ctxs[c] == s.ctxs[c])
    ensures l.c in s'.ctxs
    ensures if l.c in s.ctxs
            then !l.Open? && s'.ctxs[l.c].pid == s.ctxs[l.c].pid && s'.ctxs[l.c].epoch == s.ctxs[l.c].epoch
            else l.Open? && s'.ctxs[l.c].pid == l.pid && s'.ctxs[l.c].epoch == s.removals
  {
  }

  lemma StepPc(s: State, l: Label, s': State)
    requires Tracked(s) && Step(s, l) == Some(s')
    ensures l.c in s'.ctxs && s'.ctxs[l.c].pc == PcAfter(l) && s'.ctxs[l.c].holds == OwnsAfter(l)
  {
    if l.c in s.ctxs { assert CtxOk(s, s.ctxs[l.c]); }
  }

  lemma ToldNext(ls: seq<Label>, l: Label, s: State, s': State, c: nat)
    requires Told(ls, s, c) && Tracked(s) && s.removals == Removals(ls) && Step(s, l) == Some(s')
    ensures Told(ls + [l], s', c)
  {
    LastNext(ls, l, c);
    StepOwn(s, l, s', c);
    StepPc(s, l, s');
  }

  lemma {:induction false} ToldByCalls(ls: seq<Label>, c: nat)
    requires IsRun(ls)
    ensures Told(ls, After(ls).value, c)
  {
    if ls != [] {
      var prev, l := ls[..|ls| - 1], ls[|ls| - 1];
      ToldByCalls(prev, c);
      RunInv(prev);
      ToldNext(prev, l, After(prev).value, After(ls).value, c);
      assert prev + [l] == ls;
    }
  }

  lemma StepAllowed(ls: seq<Label>, l: Label, s: State)
    requires Tracked(s) && forall c :: Told(ls, s, c)
    ensures Step(s, l).Some? <==> Allowed(ls, l)
  {
    assert Told(ls, s, l.c);
    if l.Flock? && l.c in s.ctxs {
      forall d ensures Owns(ls, d) <==> d in s.ctxs && s.ctxs[d].holds { assert Told(ls, s, d); }
      forall d | d in s.ctxs
        ensures s.ctxs[d].ino == s.ctxs[l.c].ino <==> EpochOf(ls, d) == EpochOf(ls, l.c)
      {
        assert Told(ls, s, d);
      }
    }
  }

  /** In every run a context holds a lock exactly when its last call left it one, and a
      call can come next exactly when it is allowed. */
  lemma RunExactly(ls: seq<Label>, l: Label)
    requires IsRun(ls)
    ensures forall c :: c in Holders(After(ls).value) <==> Owns(ls, c)
    ensures IsRun(ls + [l]) <==> Allowed(ls, l)
  {
    RunInv(ls);
    var s := After(ls).value;
    forall c ensures Told(ls, s, c) { ToldByCalls(ls, c); }
    forall c ensures c in Holders(s) <==> Owns(ls, c) { assert Told(ls, s, c); }
    ExtendRun(ls, l);
    StepAllowed(ls, l, s);
  }

  // ------------------------------------------- the bound is reached for every n

  lemma {:induction false} ExtendRun(ls: seq<Label>, l: Label)
    requires IsRun(ls)
    ensures After(ls + [l]) == Step(After(ls).value, l)
    ensures Removals(ls + [l]) == Removals(ls) + if l.RemoveAll? then 1 else 0
  {
    assert (ls + [l])[..|ls|] == ls;
  }

  /** Context `b` opens before `a` removes the file, and keeps its lock on the
      orphaned inode. */
  lemma OvertakeOnce(ls: seq<Label>, a: nat, b: nat) returns (ls': seq<Label>)
    requires IsRun(ls) && After(ls).value.path == None && a != b
    requires a !in After(ls).value.ctxs && b !in After(ls).value.ctxs
    ensures IsRun(ls') && Removals(ls') == Removals(ls) + 1
    ensures After(ls').value.path == None
    ensures Holders(After(ls').value) == Holders(After(ls).value) + {b}
    ensures After(ls').value.ctxs.Keys == After(ls).value.ctxs.Keys + {a, b}
  {
    RunInv(ls);
    var s := After(ls).value;
    var l3, s3 := Acquire(ls, s, a, 1);
    ls' := Handover(l3, s3, a, b, |s.inodes|);
    assert Holders(s3) - {a} == Holders(s);
  }

  /** The inode that opening the path gives. */
  function Named(s: State): nat { if s.path.Some? then s.path.value else |s.inodes| }

  /** A whole `TryLock` in a row, when the path's inode is not locked. */
  lemma Acquire(ls: seq<Label>, s: State, a: nat, pid: nat) returns (ls': seq<Label>, s': State)
    requires After(ls) == Some(s) && Inv(s) && Free(s, Named(s)) && a !in s.ctxs && 0 < pid
    ensures ls' == ls + [Open(a, pid), Flock(a), Write(a)] && After(ls') == Some(s')
    ensures Removals(ls') == Removals(ls) && s'.removals == s.removals
    ensures s'.path == Some(Named(s)) && s'.ctxs == s.ctxs[a := Ctx(pid, Named(s), Holding, true, s.removals)]
    ensures forall d :: HoldsOn(s', a, d) ==> d == a
    ensures s'.inodes == if s.path == None then s.inodes + [Decimal(pid)]
                         else s.inodes[Named(s) := Overwrite(s.inodes[Named(s)], Decimal(pid))]
  {
    var s1, s2;
    s1, s2, s' := LockSteps(s, a, pid);
    var l1 := ls + [Open(a, pid)];
    var l2 := l1 + [Flock(a)];
    ExtendRun(ls, Open(a, pid));
    ExtendRun(l1, Flock(a));
    ExtendRun(l2, Write(a));
    ls' := ls + [Open(a, pid), Flock(a), Write(a)];
    assert ls' == l2 + [Write(a)];
  }

  lemma LockSteps(s: State, a: nat, pid: nat) returns (s1: State, s2: State, s': State)
    requires Inv(s) && Free(s, Named(s)) && a !in s.ctxs && 0 < pid
    ensures Step(s, Open(a, pid)) == Some(s1) && Step(s1, Flock(a)) == Some(s2) && Step(s2, Write(a)) == Some(s')
    ensures s'.removals == s.removals && s'.path == Some(Named(s))
    ensures s'.ctxs == s.ctxs[a := Ctx(pid, Named(s), Holding, true, s.removals)]
    ensures forall d :: HoldsOn(s', a, d) ==> d == a
    ensures s'.inodes == if s.path == None then s.inodes + [Decimal(pid)]
                         else s.inodes[Named(s) := Overwrite(s.inodes[Named(s)], Decimal(pid))]
  {
    s1 := Step(s, Open(a, pid)).value;
    assert s1.ctxs == s.ctxs[a := Ctx(pid, Named(s), Opened, false, s.removals)] && s1.path == Some(Named(s));
    assert Free(s1, Named(s));
    s2 := Goto(s1, a, Locked, true);
    s' := Goto(Put(s2, a, Decimal(pid)), a, Holding, true);
    if s.path == None {
      assert (s.inodes + [""])[|s.inodes| := Decimal(pid)] == s.inodes + [Decimal(pid)];
    }
  }

  lemma Follows(ls: seq<Label>, s: State, l: Label) returns (s': State)
    requires After(ls) == Some(s) && Step(s, l).Some?
    ensures After(ls + [l]) == Some(s') && Step(s, l) == Some(s')
  {
    ExtendRun(ls, l);
    s' := Step(s, l).value;
  }

  lemma Handover(ls: seq<Label>, s: State, a: nat, b: nat, i: nat) returns (ls': seq<Label>)
    requires After(ls) == Some(s) && At(s, a, Holding) && s.ctxs[a].ino == i && s.path == Some(i)
    requires b !in s.ctxs && forall d :: HoldsOn(s, a, d) ==> d == a
    requires s.ctxs[a].holds
    ensures IsRun(ls') && Removals(ls') == Removals(ls) + 1
    ensures After(ls').value.path == None
    ensures Holders(After(ls').value) == Holders(s) - {a} + {b}
    ensures After(ls').value.ctxs.Keys == s.ctxs.Keys + {b}
  {
    ExtendRun(ls, Open(b, 1));
    var l4 := ls + [Open(b, 1)];
    ExtendRun(l4, FlockUn(a, true));
    var l5 := l4 + [FlockUn(a, true)];
    ExtendRun(l5, Close(a));
    var l6 := l5 + [Close(a)];
    Vacated(s, After(l6).value, a, b, i);
    ls' := Orphan(l6, After(l6).value, a, b, i);
  }

  lemma Vacated(s: State, s6: State, a: nat, b: nat, i: nat)
    requires a in s.ctxs && s.ctxs[a].ino == i && s.ctxs[a].holds && b !in s.ctxs
    requires forall d :: HoldsOn(s, a, d) ==> d == a
    requires s6.ctxs == s.ctxs[b := Ctx(1, i, Opened, false, s.removals)]
                              [a := s.ctxs[a].(pc := Closed, holds := false)]
    ensures Free(s6, i) && Holders(s6) == Holders(s) - {a} && s6.ctxs.Keys == s.ctxs.Keys + {b}
  {
    forall d | d in s6.ctxs && s6.ctxs[d].holds ensures s6.ctxs[d].ino != i {
      assert !HoldsOn(s, a, d);
    }
  }

  lemma Orphan(ls: seq<Label>, s: State, a: nat, b: nat, i: nat) returns (ls': seq<Label>)
    requires After(ls) == Some(s) && At(s, a, Closed) && At(s, b, Opened) && s.ctxs[b].ino == i
    requires Free(s, i)
    ensures IsRun(ls') && Removals(ls') == Removals(ls) + 1
    ensures After(ls').value.path == None
    ensures Holders(After(ls').value) == Holders(s) + {b}
    ensures After(ls').value.ctxs.Keys == s.ctxs.Keys
  {
    ExtendRun(ls, Flock(b));
    var l7 := ls + [Flock(b)];
    ExtendRun(l7, RemoveAll(a));
    ls' := l7 + [RemoveAll(a)];
  }

  /** "Always one holder" is false: for every `n` some run with `n` calls of
      `RemoveAll` ends with `n + 1` contexts that each own a lock. */
  lemma {:induction false} HoldersAttained(n: nat) returns (ls: seq<Label>)
    ensures IsRun(ls) && Removals(ls) == n && |Holders(After(ls).value)| == n + 1
  {
    var ls0 := Orphans(n);
    var c := 2 * n;
    RunInv(ls0);
    ExtendRun(ls0, Open(c, 1));
    var ls1 := ls0 + [Open(c, 1)];
    ExtendRun(ls1, Flock(c));
    ls := ls1 + [Flock(c)];
    assert Holders(After(ls).value) == Holders(After(ls0).value) + {c};
  }

  lemma {:induction false} Orphans(n: nat) returns (ls: seq<Label>)
    ensures IsRun(ls) && Removals(ls) == n && After(ls).value.path == None
    ensures |Holders(After(ls).value)| == n
    ensures forall c :: c in After(ls).value.ctxs ==> c < 2 * n
  {
    if n == 0 {
      ls := [];
      assert Holders(INIT) == {};
    } else {
      var prev := Orphans(n - 1);
      ls := OvertakeOnce(prev, 2 * n - 2, 2 * n - 1);
    }
  }

  // ------------------------------------------------------ unlinking too often

  /** Whenever a context has closed its file and the path is free, another one can
      take the lock, and a further `Unlock` of the first unlinks the file that the
      other holds. */
  lemma UnlinksHeldFile(ls: seq<Label>, a: nat, b: nat)
    requires IsRun(ls) && At(After(ls).value, a, Closed) && After(ls).value.path == None
    requires b !in After(ls).value.ctxs
    ensures var ls' := ls + [Open(b, 1), Flock(b), Write(b)];
            && IsRun(ls') && IsRun(ls' + [RemoveAll(a)])
            && At(After(ls').value, a, Closed) && At(After(ls').value, b, Holding)
            && After(ls').value.path == Some(After(ls').value.ctxs[b].ino)
            && At(After(ls' + [RemoveAll(a)]).value, b, Holding)
            && After(ls' + [RemoveAll(a)]).value.path == None
  {
    RunInv(ls);
    var ls', s' := Acquire(ls, After(ls).value, b, 1);
    var _ := Follows(ls', s', RemoveAll(a));
  }

  /** The plain case: context 1 opens while context 0 holds the lock, and takes it as
      soon as context 0 has released it; then context 0's first and only unlink removes
      the file that context 1 holds, though nobody unlinked before. */
  lemma ReleasedThenUnlinked() returns (ls: seq<Label>)
    ensures ls == [Open(0, 7), Flock(0), Write(0), Open(1, 8), FlockUn(0, true), Close(0), Flock(1)]
    ensures IsRun(ls) && !UnlinkedSince(ls, 0)
    ensures var s := After(ls).value;
            && At(s, 0, Closed) && 1 in Holders(s) && s.path == Some(s.ctxs[1].ino) && NamesHeldFile(s)
            && s.ctxs.Keys == {0, 1} && At(s, 1, Locked)
  {
    var l1, s1 := Acquire([], INIT, 0, 7);
    var s2, s3, s4 := OpensAsOtherLeaves(s1);
    var l2 := l1 + [Open(1, 8)];
    var l3 := l2 + [FlockUn(0, true)];
    var l4 := l3 + [Close(0)];
    ExtendRun(l1, Open(1, 8));
    ExtendRun(l2, FlockUn(0, true));
    ExtendRun(l3, Close(0));
    assert Free(s4, 0);
    ExtendRun(l4, Flock(1));
    ls := l4 + [Flock(1)];
    assert forall i :: 0 <= i < |ls| ==> !ls[i].RemoveAll?;
    assert 1 in Holders(After(ls).value);
  }

  /** `TryLock` can succeed on a file the path no longer names: in the same case
      context 1 writes its pid after that unlink. */
  lemma Overtaken() returns (ls: seq<Label>)
    ensures ls == [Open(0, 7), Flock(0), Write(0), Open(1, 8), FlockUn(0, true), Close(0),
                   Flock(1), RemoveAll(0), Write(1)]
    ensures IsRun(ls) && At(After(ls).value, 1, Holding) && After(ls).value.path == None
    ensures After(ls).value.ctxs.Keys == {0, 1} && Owner(After(ls).value) == None
  {
    var l1 := ReleasedThenUnlinked();
    var s2 := Follows(l1, After(l1).value, RemoveAll(0));
    var l2 := l1 + [RemoveAll(0)];
    var _ := Follows(l2, s2, Write(1));
    ls := l2 + [Write(1)];
  }

  lemma OpensAsOtherLeaves(s: State) returns (s1: State, s2: State, s3: State)
    requires s.path == Some(0) && s.ctxs == map[0 := Ctx(7, 0, Holding, true, 0)] && s.removals == 0
    ensures Step(s, Open(1, 8)) == Some(s1) && Step(s1, FlockUn(0, true)) == Some(s2) && Step(s2, Close(0)) == Some(s3)
    ensures s3.path == Some(0) && s3.ctxs.Keys == {0, 1}
    ensures s3.ctxs[0].pc == Closed && !s3.ctxs[0].holds && s3.ctxs[1] == Ctx(8, 0, Opened, false, 0)
  {
    s1 := s.(ctxs := s.ctxs[1 := Ctx(8, 0, Opened, false, 0)]);
    s2 := Goto(s1, 0, Unlocked, false);
    s3 := Goto(s2, 0, Closed, false);
  }

  /** Nor need the file that a context's only `Unlock` removes be the one it opened. */
  lemma FirstUnlockHitsForeign() returns (ls: seq<Label>)
    ensures IsRun(ls) && forall i :: 0 <= i < |ls| ==> ls[i] != RemoveAll(1)
    ensures var s := After(ls).value;
            && At(s, 1, Closed) && At(s, 2, Holding) && s.path == Some(s.ctxs[2].ino)
            && IsRun(ls + [RemoveAll(1)])
  {
    var l1 := Overtaken();
    var l3 := Leaves(l1, After(l1).value, 1);
    UnlinksHeldFile(l3, 1, 2);
    ls := l3 + [Open(2, 1), Flock(2), Write(2)];
    assert forall i :: 0 <= i < |ls| ==> ls[i] != RemoveAll(1);
  }

  lemma Leaves(ls: seq<Label>, s: State, c: nat) returns (ls': seq<Label>)
    requires After(ls) == Some(s) && At(s, c, Holding)
    ensures ls' == ls + [FlockUn(c, true), Close(c)] && IsRun(ls')
    ensures At(After(ls').value, c, Closed) && After(ls').value.path == s.path
    ensures After(ls').value.ctxs.Keys == s.ctxs.Keys
  {
    ExtendRun(ls, FlockUn(c, true));
    ExtendRun(ls + [FlockUn(c, true)], Close(c));
    ls' := ls + [FlockUn(c, true), Close(c)];
    assert ls' == ls + [FlockUn(c, true)] + [Close(c)];
  }

  // ------------------------------------------------- what the file says: Owner

  const MAX_INT: int := 0x7FFF_FFFF_FFFF_FFFF

  /** `strconv.Atoi` on a 64-bit platform: an optional sign, then digits, in range. */
  function Atoi(s: string): Option<int> {
    var signed := s != [] && s[0] in "+-";
    var digits := if signed then s[1..] else s;
    if digits == [] || !AllDigits(digits) then None else
    var n: int := Value(digits);
    var v := if signed && s[0] == '-' then -n else n;
    if -MAX_INT - 1 <= v <= MAX_INT then Some(v) else None
  }

  function Owner(s: State): Option<int> {
    if s.path.Some? && s.path.value < |s.inodes| then Atoi(s.inodes[s.path.value]) else None
  }

  /** Because `TryLock` does not truncate, the file reads as the new pid exactly
      when the previous content was not longer, and otherwise as no number or as a
      larger one. */
  lemma OwnerAfterWrite(was: string, pid: nat)
    requires 0 < pid <= MAX_INT
    ensures var r := Atoi(Overwrite(was, Decimal(pid)));
            && (r == Some(pid) <==> |was| <= |Decimal(pid)|)
            && (r.Some? && r.value != pid ==> r.value > pid)
  {
    var d := Decimal(pid);
    DecimalValue(pid);
    assert IsDigit(d[0]);
    if |d| < |was| {
      var tail := was[|d|..];
      assert (d + tail)[0] == d[0];
      if AllDigits(d + tail) {
        assert forall i :: 0 <= i < |tail| ==> tail[i] == (d + tail)[|d| + i];
        MoreDigits(d, tail);
      }
    }
  }

  /** The text a call puts into the file, if it puts any. */
  function Wrote(s: State, l: Label): Option<string> {
    if l.Write? && l.c in s.ctxs then Some(Decimal(s.ctxs[l.c].pid))
    else if l.WriteFails? && l.c in s.ctxs && l.n <= |Decimal(s.ctxs[l.c].pid)|
    then Some(Decimal(s.ctxs[l.c].pid)[..l.n]) else None
  }

  function Extend(ps: seq<string>, text: Option<string>): seq<string> {
    if text.Some? then ps + [text.value] else ps
  }

  /** The texts written by a run, in order. */
  function Pieces(ls: seq<Label>): seq<string> {
    if ls == [] then [] else
      var prev := ls[..|ls| - 1];
      match After(prev)
      case None => []
      case Some(s) => Extend(Pieces(prev), Wrote(s, ls[|ls| - 1]))
  }

  function Overlay(ps: seq<string>): string {
    if ps == [] then [] else Overwrite(Overlay(ps[..|ps| - 1]), ps[|ps| - 1])
  }

  predicate NoneLonger(ps: seq<string>, n: nat) {
    forall i :: 0 <= i < |ps| ==> |ps[i]| <= n
  }

  /** The file is as long as the longest text ever written to it. */
  lemma {:induction false} OverlayLength(ps: seq<string>, n: nat)
    ensures |Overlay(ps)| <= n <==> NoneLonger(ps, n)
  {
    if ps != [] {
      var prev := ps[..|ps| - 1];
      OverlayLength(prev, n);
      assert forall i :: 0 <= i < |prev| ==> prev[i] == ps[i];
    }
  }

  function WroteOn(s: State, l: Label, i: nat): Option<string> {
    if l.c in s.ctxs && s.ctxs[l.c].ino == i then Wrote(s, l) else None
  }

  /** The texts that a run writes to inode `i`, in order. */
  function PiecesOn(ls: seq<Label>, i: nat): seq<string> {
    if ls == [] then [] else
      var prev := ls[..|ls| - 1];
      match After(prev)
      case None => []
      case Some(s) => Extend(PiecesOn(prev, i), WroteOn(s, ls[|ls| - 1], i))
  }

  /** Inode `i` holds the texts `ps` written over each other. */
  predicate FileIs(s: State, i: nat, ps: seq<string>) {
    if i < |s.inodes| then s.inodes[i] == Overlay(ps) else ps == []
  }

  ghost predicate HolderWroteLast(s: State, i: nat, ps: seq<string>) {
    forall c :: At(s, c, Holding) && s.ctxs[c].ino == i ==> ps != [] && ps[|ps| - 1] == Decimal(s.ctxs[c].pid)
  }

  lemma FileStep(s: State, l: Label, s': State, i: nat, ps: seq<string>)
    requires Tracked(s) && Step(s, l) == Some(s') && FileIs(s, i, ps)
    ensures FileIs(s', i, Extend(ps, WroteOn(s, l, i)))
  {
    if WroteOn(s, l, i).Some? {
      assert CtxOk(s, s.ctxs[l.c]);
      assert Extend(ps, WroteOn(s, l, i))[..|ps|] == ps;
    }
  }

  lemma HoldingStep(s: State, l: Label, s': State, c: nat)
    requires Step(s, l) == Some(s') && At(s', c, Holding)
    ensures c in s.ctxs && s'.ctxs[c].ino == s.ctxs[c].ino && s'.ctxs[c].pid == s.ctxs[c].pid
    ensures if c == l.c then l.Write? else s'.ctxs[c] == s.ctxs[c]
  {
  }

  lemma HolderStep(s: State, l: Label, s': State, i: nat, ps: seq<string>)
    requires Inv(s) && Step(s, l) == Some(s') && HolderWroteLast(s, i, ps)
    ensures HolderWroteLast(s', i, Extend(ps, WroteOn(s, l, i)))
  {
    forall c | At(s', c, Holding) && s'.ctxs[c].ino == i
      ensures var qs := Extend(ps, WroteOn(s, l, i)); qs != [] && qs[|qs| - 1] == Decimal(s'.ctxs[c].pid)
    {
      HoldingStep(s, l, s', c);
      if c != l.c {
        OneWriter(s, l, c);
      }
    }
  }

  /** While one context holds the lock on an inode no other one writes there. */
  lemma OneWriter(s: State, l: Label, c: nat)
    requires Inv(s) && Step(s, l).Some? && At(s, c, Holding) && c != l.c
    ensures WroteOn(s, l, s.ctxs[c].ino) == None
  {
    assert CtxOk(s, s.ctxs[c]);
    if WroteOn(s, l, s.ctxs[c].ino).Some? {
      assert CtxOk(s, s.ctxs[l.c]);
      assert HoldsOn(s, c, l.c);
    }
  }

  /** After every run each inode holds the texts written to it over each other, and
      where a context holds the lock its pid was written last. */
  lemma {:induction false} RunContent(ls: seq<Label>, i: nat)
    requires IsRun(ls)
    ensures FileIs(After(ls).value, i, PiecesOn(ls, i)) && HolderWroteLast(After(ls).value, i, PiecesOn(ls, i))
  {
    if ls != [] {
      var prev, l := ls[..|ls| - 1], ls[|ls| - 1];
      RunContent(prev, i);
      RunInv(prev);
      FileStep(After(prev).value, l, After(ls).value, i, PiecesOn(prev, i));
      HolderStep(After(prev).value, l, After(ls).value, i, PiecesOn(prev, i));
    }
  }

  /** After every run in which nobody unlinked since a holder opened its file, `Owner`
      names that holder exactly when nothing longer was written to the file; when it is
      wrong and reads as a number, that number is larger. */
  lemma OwnerExactly(ls: seq<Label>, c: nat)
    requires IsRun(ls) && At(After(ls).value, c, Holding) && !UnlinkedSince(ls, c)
    requires After(ls).value.ctxs[c].pid <= MAX_INT
    ensures var s := After(ls).value;
            && (Owner(s) == Some(s.ctxs[c].pid) <==>
                NoneLonger(PiecesOn(ls, s.ctxs[c].ino), |Decimal(s.ctxs[c].pid)|))
            && (Owner(s).Some? ==> Owner(s).value >= s.ctxs[c].pid)
  {
    NamedExactly(ls, c);
    RunInv(ls);
    RunContent(ls, After(ls).value.ctxs[c].ino);
    OwnerOfFile(After(ls).value, PiecesOn(ls, After(ls).value.ctxs[c].ino), c);
  }

  lemma OneFileStep(s: State, l: Label, s': State)
    requires Tracked(s) && s.removals == 0 && Step(s, l) == Some(s') && !l.RemoveAll?
    ensures s.path == None ==> Wrote(s, l) == None
    ensures s.path.Some? ==> s'.path == s.path && WroteOn(s, l, s.path.value) == Wrote(s, l)
    ensures s.path == None && s'.path.Some? ==> s'.path.value == |s.inodes|
  {
    if l.c in s.ctxs {
      assert CtxOk(s, s.ctxs[l.c]);
    }
  }

  /** Without unlinks there is only one file. */
  lemma {:induction false} OneFile(ls: seq<Label>)
    requires IsRun(ls) && Removals(ls) == 0
    ensures var s := After(ls).value;
            if s.path == None then Pieces(ls) == [] else PiecesOn(ls, s.path.value) == Pieces(ls)
  {
    if ls != [] {
      var prev, l := ls[..|ls| - 1], ls[|ls| - 1];
      OneFile(prev);
      RunInv(prev);
      OneFileStep(After(prev).value, l, After(ls).value);
      RunContent(prev, |After(prev).value.inodes|);
    }
  }

  /** Over every run in which nobody calls `Unlock`, `Owner` names the holder exactly
      when no process wrote anything longer. */
  lemma OwnerOfCrashOnlyRun(ls: seq<Label>, c: nat)
    requires IsRun(ls) && Removals(ls) == 0 && At(After(ls).value, c, Holding)
    requires After(ls).value.ctxs[c].pid <= MAX_INT
    ensures var s := After(ls).value;
            && (Owner(s) == Some(s.ctxs[c].pid) <==> NoneLonger(Pieces(ls), |Decimal(s.ctxs[c].pid)|))
            && (Owner(s).Some? ==> Owner(s).value >= s.ctxs[c].pid)
  {
    NoRemovals(ls);
    NamedExactly(ls, c);
    OneFile(ls);
    OwnerExactly(ls, c);
  }

  lemma Crashes(p: nat) returns (ls: seq<Label>, s: State)
    requires 0 < p
    ensures ls == [Open(0, p), Flock(0), Write(0)] + [Die(0)] && After(ls) == Some(s) && Removals(ls) == 0
    ensures s.path == Some(0) && s.inodes == [Decimal(p)] && s.ctxs.Keys == {0} && !s.ctxs[0].holds
  {
    var l1, s1 := Acquire([], INIT, 0, p);
    ExtendRun(l1, Die(0));
    ls, s := l1 + [Die(0)], Goto(s1, 0, Dead, false);
    assert s1.inodes == [Decimal(p)];
  }

  /** One process with pid `p` locks and dies, then another with pid `q` locks. */
  lemma CrashThenLock(p: nat, q: nat) returns (ls: seq<Label>, s: State)
    requires 0 < p && 0 < q
    ensures ls == [Open(0, p), Flock(0), Write(0), Die(0), Open(1, q), Flock(1), Write(1)]
    ensures After(ls) == Some(s) && Removals(ls) == 0 && Holders(s) == {1} && At(s, 1, Holding) && s.ctxs[1].pid == q
    ensures Owner(s) == Atoi(Overwrite(Decimal(p), Decimal(q)))
  {
    var l1, s1 := Crashes(p);
    ls, s := LockAfterCrash(l1, s1, q);
  }

  lemma LockAfterCrash(ls: seq<Label>, s: State, q: nat) returns (ls': seq<Label>, s': State)
    requires After(ls) == Some(s) && Removals(ls) == 0 && 0 < q
    requires s.path == Some(0) && |s.inodes| == 1 && s.ctxs.Keys == {0} && !s.ctxs[0].holds
    ensures ls' == ls + [Open(1, q), Flock(1), Write(1)]
    ensures After(ls') == Some(s') && Removals(ls') == 0 && Holders(s') == {1}
    ensures At(s', 1, Holding) && s'.ctxs[1].pid == q
    ensures Owner(s') == Atoi(Overwrite(s.inodes[0], Decimal(q)))
  {
    RunInv(ls);
    ls', s' := Acquire(ls, s, 1, q);
  }

  /** A wrong answer can be another process's pid: 9 written over 10 reads as 90. */
  lemma OwnerNamesAnother()
    ensures var ls := [Open(0, 10), Flock(0), Write(0), Die(0), Open(1, 9), Flock(1), Write(1)];
            && IsRun(ls) && Removals(ls) == 0 && At(After(ls).value, 1, Holding)
            && After(ls).value.ctxs[1].pid == 9 && Owner(After(ls).value) == Some(90)
  {
    var ls, s := CrashThenLock(10, 9);
    NineOverTen();
  }

  lemma NineOverTen()
    ensures Atoi(Overwrite(Decimal(10), Decimal(9))) == Some(90)
  {
    assert Decimal(1) == "1" && Decimal(10) == "10" && Decimal(9) == "9";
    assert "10"[1..] == "0" && "9" + "0" == "90";
    assert AllDigits("90") && "90"[..1] == "9" && "9"[..0] == [];
    assert Value("9") == 9;
    assert Value("90") == 90;
  }

  lemma OwnerOfFile(s: State, ps: seq<string>, c: nat)
    requires Tracked(s) && At(s, c, Holding) && s.ctxs[c].pid <= MAX_INT && s.path == Some(s.ctxs[c].ino)
    requires FileIs(s, s.ctxs[c].ino, ps) && HolderWroteLast(s, s.ctxs[c].ino, ps)
    ensures Owner(s) == Some(s.ctxs[c].pid) <==> NoneLonger(ps, |Decimal(s.ctxs[c].pid)|)
    ensures Owner(s).Some? ==> Owner(s).value >= s.ctxs[c].pid
  {
    assert CtxOk(s, s.ctxs[c]);
    OwnerFromPieces(ps, s.ctxs[c].pid);
  }

  lemma OwnerFromPieces(ps: seq<string>, pid: nat)
    requires ps != [] && ps[|ps| - 1] == Decimal(pid) && 0 < pid <= MAX_INT
    ensures Atoi(Overlay(ps)) == Some(pid) <==> NoneLonger(ps, |Decimal(pid)|)
    ensures Atoi(Overlay(ps)).Some? ==> Atoi(Overlay(ps)).value >= pid
  {
    OwnerAfterWrite(Overlay(ps[..|ps| - 1]), pid);
    LongestIsLast(ps);
  }

  lemma LongestIsLast(ps: seq<string>)
    requires ps != []
    ensures |Overlay(ps[..|ps| - 1])| <= |ps[|ps| - 1]| <==>
            NoneLonger(ps, |ps[|ps| - 1]|)
  {
    var prev := ps[..|ps| - 1];
    OverlayLength(prev, |ps[|ps| - 1]|);
    assert forall i :: 0 <= i < |prev| ==> prev[i] == ps[i];
  }

  // ------------------------------------------------------------ the Go methods

  /** The calls of `ls` that other contexts than `fd` can make, in this order, from
      `s`; and where they lead. */
  function Foreign(s: State, fd: nat, ls: seq<Label>): seq<Label>
    decreases |ls|
  {
    if ls == [] then []
    else if ls[0].c != fd && Step(s, ls[0]).Some? then
      [ls[0]] + Foreign(Step(s, ls[0]).value, fd, ls[1..])
    else Foreign(s, fd, ls[1..])
  }

  function Others(s: State, fd: nat, ls: seq<Label>): (r: State)
    ensures fd in s.ctxs ==> fd in r.ctxs && r.ctxs[fd] == s.ctxs[fd]
    decreases |ls|
  {
    if ls == [] then s
    else if ls[0].c != fd && Step(s, ls[0]).Some? then
      Others(Step(s, ls[0]).value, fd, ls[1..])
    else Others(s, fd, ls[1..])
  }

  /** The kernel state shared by all contexts, with the calls made so far. */
  class Kernel {
    var st: State
    ghost var trace: seq<Label>

    ghost predicate Valid() reads this { After(trace) == Some(st) }

    constructor ()
      ensures Valid() && trace == []
    {
      st, trace := INIT, [];
    }

    method Call(l: Label)
      requires Valid() && Step(st, l).Some?
      modifies this
      ensures Valid() && trace == old(trace) + [l] && Some(st) == Step(old(st), l)
    {
      ExtendRun(trace, l);
      st, trace := Step(st, l).value, trace + [l];
    }

    method Opening(fd: nat, pid: nat)
      requires Valid() && fd !in st.ctxs && 0 < pid
      modifies this
      ensures Valid() && st == AfterOpen(old(st), fd, pid) && trace == old(trace) + [Open(fd, pid)]
    {
      Call(Open(fd, pid));
    }

    method Locking(fd: nat, lucky: bool) returns (ok: bool)
      requires Valid() && At(st, fd, Opened)
      modifies this
      ensures Valid() && ok == (lucky && Free(old(st), old(st.ctxs[fd].ino)))
      ensures ok ==> st == AfterFlock(old(st), fd)
      ensures trace == old(trace) + [if ok then Flock(fd) else FlockFails(fd)]
    {
      ok := lucky && Free(st, st.ctxs[fd].ino);
      Call(if ok then Flock(fd) else FlockFails(fd));
    }

    method Writing(fd: nat, n: nat) returns (ok: bool)
      requires Valid() && At(st, fd, Locked) && n <= |Decimal(st.ctxs[fd].pid)|
      modifies this
      ensures Valid() && ok == (n == |Decimal(old(st.ctxs[fd].pid))|) && st.removals == old(st.removals)
      ensures st.path == old(st.path) && |st.inodes| == |old(st.inodes)|
      ensures fd in st.ctxs && st.ctxs[fd].ino < |st.inodes| ==>
                Decimal(old(st.ctxs[fd].pid))[..n] <= st.inodes[st.ctxs[fd].ino]
      ensures fd in st.ctxs && st.ctxs[fd] == old(st.ctxs[fd]).(pc := if ok then Holding else Broken, holds := true)
      ensures trace == old(trace) + [if ok then Write(fd) else WriteFails(fd, n)]
    {
      ok := n == |Decimal(st.ctxs[fd].pid)|;
      Call(if ok then Write(fd) else WriteFails(fd, n));
    }

    method Release(fd: nat, ok: bool)
      requires Valid() && (At(st, fd, Holding) || At(st, fd, Closed))
      modifies this
      ensures Valid() && st == Released(old(st), fd, ok)
      ensures trace == old(trace) + if old(At(st, fd, Holding)) then [FlockUn(fd, ok)] else []
    {
      if At(st, fd, Holding) { Call(FlockUn(fd, ok)); }
    }

    method Shutdown(fd: nat)
      requires Valid() && (At(st, fd, Unlocked) || At(st, fd, Closed))
      modifies this
      ensures Valid() && st == Shut(old(st), fd)
      ensures trace == old(trace) + if old(At(st, fd, Unlocked)) then [Close(fd)] else []
    {
      if At(st, fd, Unlocked) { Call(Close(fd)); }
    }

    method Unlinking(fd: nat)
      requires Valid() && At(st, fd, Closed)
      modifies this
      ensures Valid() && st == old(st).(path := None, removals := old(st).removals + 1)
      ensures trace == old(trace) + [RemoveAll(fd)]
    {
      Call(RemoveAll(fd));
    }

    /** Between two calls of context `fd`, others act as the scheduler has it. */
    method Interleave(fd: nat, gap: seq<Label>)
      requires Valid()
      modifies this
      ensures Valid() && st == Others(old(st), fd, gap)
      ensures trace == old(trace) + Foreign(old(st), fd, gap)
    {
      ghost var all, done: seq<Label> := Foreign(st, fd, gap), [];
      for i := 0 to |gap|
        invariant Valid() && trace == old(trace) + done
        invariant all == done + Foreign(st, fd, gap[i..])
        invariant Others(st, fd, gap[i..]) == Others(old(st), fd, gap)
      {
        var l := gap[i];
        assert gap[i..][0] == l && gap[i..][1..] == gap[i + 1..];
        if l.c != fd && Step(st, l).Some? {
          Assoc(done, [l], Foreign(Step(st, l).value, fd, gap[i + 1..]));
          Assoc(old(trace), done, [l]);
          Call(l);
          done := done + [l];
        }
      }
      assert gap[|gap|..] == [] && done + [] == done;
    }
  }

  /** What the kernel decides in one `TryLock`: whether the file can be opened,
      whether `flock` on a free inode succeeds, and how many characters of the pid
      are written. */
  datatype Luck = Luck(opens: bool, flocks: bool, written: nat)

  datatype Error = OpenFailed | LockFailed | WriteFailed

  /** The states inside one `TryLock`: the file open, the calls others make before
      `flock`, the lock taken, the calls others make before the write. */
  function AfterOpen(s: State, fd: nat, pid: nat): (r: State)
    requires fd !in s.ctxs && 0 < pid
    ensures At(r, fd, Opened) && r.ctxs[fd].pid == pid && r.ctxs[fd].epoch == s.removals
  {
    Step(s, Open(fd, pid)).value
  }

  function AfterFlock(s: State, fd: nat): (r: State)
    requires At(s, fd, Opened)
    ensures At(r, fd, Locked) && r.ctxs[fd] == s.ctxs[fd].(pc := Locked, holds := true)
  {
    Goto(s, fd, Locked, true)
  }

  /** The calls of one `TryLock` and of the others meanwhile. */
  function LockCalls(s: State, fd: nat, pid: nat, err: Option<Error>, n: nat, gap1: seq<Label>, gap2: seq<Label>):
      seq<Label>
    requires fd !in s.ctxs && 0 < pid
  {
    var s1 := AfterOpen(s, fd, pid);
    var s2 := Others(s1, fd, gap1);
    if err == Some(OpenFailed) then []
    else if err == Some(LockFailed) then [Open(fd, pid)] + Foreign(s1, fd, gap1) + [FlockFails(fd)]
    else [Open(fd, pid)] + Foreign(s1, fd, gap1) + [Flock(fd)] + Foreign(AfterFlock(s2, fd), fd, gap2) +
         [if err == None then Write(fd) else WriteFails(fd, n)]
  }

  lemma Gathered(t: seq<Label>, a: seq<Label>, b: seq<Label>, c: seq<Label>, d: seq<Label>, e: seq<Label>)
    ensures t + a + b + c == t + (a + b + c)
    ensures t + a + b + c + d + e == t + (a + b + c + d + e)
  {
  }

  /** After the two system calls that release the file; on a closed file they fail. */
  function Released(s: State, fd: nat, ok: bool): (r: State)
    requires At(s, fd, Holding) || At(s, fd, Closed)
    ensures At(r, fd, Unlocked) || At(r, fd, Closed)
    ensures r.ctxs[fd].ino == s.ctxs[fd].ino && r.ctxs[fd].epoch == s.ctxs[fd].epoch
  {
    if At(s, fd, Holding) then Goto(s, fd, Unlocked, !ok) else s
  }

  function Shut(s: State, fd: nat): (r: State)
    requires At(s, fd, Unlocked) || At(s, fd, Closed)
    ensures At(r, fd, Closed)
    ensures r.ctxs[fd].ino == s.ctxs[fd].ino && r.ctxs[fd].epoch == s.ctxs[fd].epoch
  {
    if At(s, fd, Unlocked) then Goto(s, fd, Closed, false) else s
  }

  /** The state in which one `Unlock` comes to its unlink, and the calls of that
      `Unlock` and of the others up to it. */
  function BeforeUnlink(s: State, fd: nat, ok: bool, gap1: seq<Label>, gap2: seq<Label>): (r: State)
    requires At(s, fd, Holding) || At(s, fd, Closed)
    ensures At(r, fd, Closed)
    ensures r.ctxs[fd].ino == s.ctxs[fd].ino && r.ctxs[fd].epoch == s.ctxs[fd].epoch
  {
    Others(Shut(Others(Released(s, fd, ok), fd, gap1), fd), fd, gap2)
  }

  function UnlockCalls(s: State, fd: nat, ok: bool, gap1: seq<Label>, gap2: seq<Label>): seq<Label>
    requires At(s, fd, Holding) || At(s, fd, Closed)
  {
    var s1 := Released(s, fd, ok);
    var s2 := Others(s1, fd, gap1);
    (if At(s, fd, Holding) then [FlockUn(fd, ok)] else []) + Foreign(s1, fd, gap1) +
    (if At(s2, fd, Unlocked) then [Close(fd)] else []) + Foreign(Shut(s2, fd), fd, gap2) + [RemoveAll(fd)]
  }

  class Context {
    const pid: nat
    var fh: Option<nat>

    constructor (pid: nat)
      ensures this.pid == pid && fh == None
    {
      this.pid, fh := pid, None;
    }

    /** `fd` names the file this call opens; `gap1` and `gap2` are what others
        attempt before the lock and before the write. The lock is refused exactly
        when the file opened is locked by then or `flock` itself fails. After success the inode held is the
        one opened, and the path names it exactly when nobody unlinked meanwhile. The
        file then begins with what was written of the pid; and when that write fails
        the lock is kept all the same. */
    method TryLock(k: Kernel, fd: nat, luck: Luck, gap1: seq<Label>, gap2: seq<Label>) returns (err: Option<Error>)
      requires k.Valid() && fd !in k.st.ctxs && 0 < pid && luck.written <= |Decimal(pid)|
      modifies k, this
      ensures k.Valid()
      ensures var s1 := AfterOpen(old(k.st), fd, pid);
              err == if !luck.opens then Some(OpenFailed)
                     else if !luck.flocks || !Free(Others(s1, fd, gap1), s1.ctxs[fd].ino) then Some(LockFailed)
                     else if luck.written < |Decimal(pid)| then Some(WriteFailed) else None
      ensures k.trace == old(k.trace) + LockCalls(old(k.st), fd, pid, err, luck.written, gap1, gap2)
      ensures fh == if err == None then Some(fd) else old(fh)
      ensures err == Some(LockFailed) ==> fd !in Holders(k.st)
      ensures err == None || err == Some(WriteFailed) ==>
                && fd in Holders(k.st) && k.st.ctxs[fd].ino < |k.st.inodes|
                && Decimal(pid)[..luck.written] <= k.st.inodes[k.st.ctxs[fd].ino]
      ensures err == None ==>
                && At(k.st, fd, Holding) && k.st.ctxs[fd].ino == AfterOpen(old(k.st), fd, pid).ctxs[fd].ino
                && (k.st.path == Some(k.st.ctxs[fd].ino) <==> k.st.removals == old(k.st.removals))
    {
      if !luck.opens { return Some(OpenFailed); }
      k.Opening(fd, pid);
      ghost var s1 := k.st;
      k.Interleave(fd, gap1);
      var ok := k.Locking(fd, luck.flocks);
      if !ok {
        Gathered(old(k.trace), [Open(fd, pid)], Foreign(s1, fd, gap1), [FlockFails(fd)], [], []);
        return Some(LockFailed);
      }
      ghost var s3 := k.st;
      k.Interleave(fd, gap2);
      ok := k.Writing(fd, luck.written);
      Gathered(old(k.trace), [Open(fd, pid)], Foreign(s1, fd, gap1), [Flock(fd)], Foreign(s3, fd, gap2),
               [if ok then Write(fd) else WriteFails(fd, luck.written)]);
      NamedMoment(k.trace, k.st, fd);
      if !ok { return Some(WriteFailed); }
      fh := Some(fd);
      return None;
    }

    /** `fh` stays set, so a second call finds a closed file and only unlinks. `hit`
        is what the path names at that moment: this context's own file exactly when
        nobody unlinked since it was opened. */
    method Unlock(k: Kernel, ok: bool, gap1: seq<Label>, gap2: seq<Label>) returns (ghost hit: Option<nat>)
      requires k.Valid()
      requires fh.Some? ==> At(k.st, fh.value, Holding) || At(k.st, fh.value, Closed)
      modifies k
      ensures k.Valid()
      ensures fh == None ==> k.trace == old(k.trace)
      ensures fh.Some? ==>
                var s := BeforeUnlink(old(k.st), fh.value, ok, gap1, gap2);
                && k.trace == old(k.trace) + UnlockCalls(old(k.st), fh.value, ok, gap1, gap2)
                && k.st == s.(path := None, removals := s.removals + 1) && hit == s.path
                && (hit == Some(s.ctxs[fh.value].ino) <==> s.removals == s.ctxs[fh.value].epoch)
                && fh.value !in Holders(k.st)
    {
      hit := None;
      if fh == None { return; }
      ghost var t, s := k.trace, k.st;
      k.Release(fh.value, ok);
      k.Interleave(fh.value, gap1);
      k.Shutdown(fh.value);
      k.Interleave(fh.value, gap2);
      NamedMoment(k.trace, k.st, fh.value);
      hit := k.st.path;
      k.Unlinking(fh.value);
      UnlockTrace(t, s, fh.value, ok, gap1, gap2);
    }
  }

  lemma UnlockTrace(t: seq<Label>, s: State, fd: nat, ok: bool, gap1: seq<Label>, gap2: seq<Label>)
    requires At(s, fd, Holding) || At(s, fd, Closed)
    ensures t + (if At(s, fd, Holding) then [FlockUn(fd, ok)] else []) + Foreign(Released(s, fd, ok), fd, gap1) +
            (if At(Others(Released(s, fd, ok), fd, gap1), fd, Unlocked) then [Close(fd)] else []) +
            Foreign(Shut(Others(Released(s, fd, ok), fd, gap1), fd), fd, gap2) + [RemoveAll(fd)]
         == t + UnlockCalls(s, fd, ok, gap1, gap2)
  {
    var s1 := Released(s, fd, ok);
    var s2 := Others(s1, fd, gap1);
    Gathered(t, if At(s, fd, Holding) then [FlockUn(fd, ok)] else [], Foreign(s1, fd, gap1),
             if At(s2, fd, Unlocked) then [Close(fd)] else [], Foreign(Shut(s2, fd), fd, gap2), [RemoveAll(fd)]);
  }

  lemma NamedMoment(ls: seq<Label>, s: State, fd: nat)
    requires After(ls) == Some(s) && fd in s.ctxs
    ensures s.path == Some(s.ctxs[fd].ino) <==> s.removals == s.ctxs[fd].epoch
    ensures At(s, fd, Closed) || At(s, fd, Refused) ==> !s.ctxs[fd].holds
    ensures s.ctxs[fd].ino < |s.inodes|
  {
    RunInv(ls);
    assert CtxOk(s, s.ctxs[fd]);
  }
}

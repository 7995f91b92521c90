/** The versioned target directory of pkg/cli: image files, the record in
    `versions.json`, and the runs that bring both up to date. */
module Target {
  import opened Prelude
  import opened Versions

  /** An image file: the version it was made for, and whether it is complete. */
  datatype Image = Image(version: string, intact: bool)

  /** `record` is `None` when there is no `versions.json`. */
  datatype Disk = Disk(files: map<Key, Image>, record: Option<Record>)

  /** How one copy or create job ends; a failed one may leave the file as it was,
      removed, or half written. A crash of the whole process is a run in which
      unfinished jobs fail and nothing is saved. */
  datatype Outcome = Finished | Failed(left: Leftover)
  datatype Leftover = Untouched | Missing | Damaged

  /** What the environment decides in one run: whether the record can be read and,
      if not, removed; for which keys `Stat` succeeds on an existing file; how each
      job ends; and whether writing the record succeeds. */
  datatype Env = Env(readable: bool, removable: bool, visible: set<Key>, jobs: map<Key, Outcome>, saved: bool) {
    function Job(k: Key): Outcome { if k in jobs then jobs[k] else Finished }
  }

  datatype Result = Ok | ReadError | JobError | SaveError

  /** The record in memory after `read`. */
  function Loaded(d: Disk, env: Env): Record {
    if d.record.Some? && env.readable then d.record.value else EMPTY
  }

  /** `read` deletes a record that it cannot use. */
  predicate ReadFails(d: Disk, env: Env) {
    d.record.Some? && !env.readable && !env.removable
  }

  function Kept(d: Disk, env: Env): Option<Record> {
    if env.readable then d.record else None
  }

  /** Whether `handle` starts a job for the key. */
  predicate Scheduled(d: Disk, want: Record, env: Env, k: Key) {
    !(k in d.files && k in env.visible) || Loaded(d, env).Get(k) != want.Get(k)
  }

  function RunJob(files: map<Key, Image>, k: Key, v: string, outcome: Outcome): map<Key, Image> {
    match outcome
    case Finished => files[k := Image(v, true)]
    case Failed(Untouched) => files
    case Failed(Missing) => files - {k}
    case Failed(Damaged) => files[k := Image(v, false)]
  }

  /** The files after the loop has gone through the first `n` keys. */
  function Files(d: Disk, want: Record, env: Env, n: nat): map<Key, Image>
    requires n <= |KEYS|
  {
    if n == 0 then d.files else
      var k, prev := KEYS[n - 1], Files(d, want, env, n - 1);
      if Scheduled(d, want, env, k) then RunJob(prev, k, want.Get(k), env.Job(k)) else prev
  }

  predicate JobFails(d: Disk, want: Record, env: Env, k: Key) {
    Scheduled(d, want, env, k) && env.Job(k).Failed?
  }

  predicate AnyJobFails(d: Disk, want: Record, env: Env) {
    exists k :: k in KEYS && JobFails(d, want, env, k)
  }

  function ResultOf(d: Disk, want: Record, env: Env): Result {
    if ReadFails(d, env) then ReadError
    else if AnyJobFails(d, want, env) then JobError
    else if Loaded(d, env) != want && !env.saved then SaveError
    else Ok
  }

  /** One whole run: `newTarget`, then `handle`. */
  function Run(d: Disk, want: Record, env: Env): Disk {
    match ResultOf(d, want, env)
    case ReadError => d
    case JobError => Disk(Files(d, want, env, 4), Kept(d, env))
    case SaveError => Disk(Files(d, want, env, 4), Kept(d, env))
    case Ok => Disk(Files(d, want, env, 4), if Loaded(d, env) != want then Some(want) else Kept(d, env))
  }

  // --------------------------------------------------------- the Go objects

  class TargetDir {
    var files: map<Key, Image>
    var record: Option<Record>

    ghost function View(): Disk reads this { Disk(files, record) }

    constructor (files: map<Key, Image>, record: Option<Record>)
      ensures View() == Disk(files, record)
    {
      this.files, this.record := files, record;
    }
  }

  class VersionsJSON {
    var fields: Record
    var needUpdateJSON: bool

    constructor ()
      ensures fields == EMPTY && !needUpdateJSON
    {
      fields, needUpdateJSON := EMPTY, false;
    }

    method Read(dir: TargetDir, env: Env) returns (ok: bool)
      requires fields == EMPTY
      modifies this`fields, dir`record
      ensures ok == (old(dir.record) == None || env.readable || env.removable)
      ensures fields == if old(dir.record).Some? && env.readable then old(dir.record).value else EMPTY
      ensures dir.record == if ok && !env.readable then None else old(dir.record)
    {
      if dir.record == None { return true; }
      if !env.readable {
        if env.removable { dir.record := None; }
        return env.removable;
      }
      fields := dir.record.value;
      return true;
    }

    method Set(k: Key, v: string)
      modifies this
      ensures fields == old(fields).Set(k, v)
      ensures needUpdateJSON == (old(needUpdateJSON) || old(fields).Get(k) != v)
    {
      if fields.Get(k) != v {
        fields := fields.Set(k, v);
        needUpdateJSON := true;
      }
    }

    method SaveToDisk(dir: TargetDir, saved: bool) returns (ok: bool)
      modifies dir`record
      ensures ok == (!needUpdateJSON || saved)
      ensures dir.record == if needUpdateJSON && saved then Some(fields) else old(dir.record)
    {
      if !needUpdateJSON { return true; }
      if saved { dir.record := Some(fields); }
      return saved;
    }
  }

  /** The fields in memory after the first `n` keys. */
  function Fields(d: Disk, want: Record, env: Env, n: nat): Record
    requires n <= |KEYS|
  {
    if n == 0 then Loaded(d, env) else
      var k, prev := KEYS[n - 1], Fields(d, want, env, n - 1);
      if Scheduled(d, want, env, k) then prev.Set(k, want.Get(k)) else prev
  }

  predicate Reached(n: nat, k: Key)
    requires n <= |KEYS|
  {
    k in KEYS[..n]
  }

  lemma {:induction false} FieldsAt(d: Disk, want: Record, env: Env, n: nat, k: Key)
    requires n <= |KEYS|
    ensures Fields(d, want, env, n).Get(k) == if Reached(n, k) then want.Get(k) else Loaded(d, env).Get(k)
  {
    if n > 0 {
      FieldsAt(d, want, env, n - 1, k);
      assert KEYS[..n] == KEYS[..n - 1] + [KEYS[n - 1]];
    }
  }

  lemma AllReached(k: Key)
    ensures Reached(4, k)
  {
    assert KEYS[..4][0] == Kernel && KEYS[..4][1] == Initrd && KEYS[..4][2] == Rootfs && KEYS[..4][3] == Data;
  }

  /** After the loop the fields in memory are the requested versions. */
  lemma FieldsBecomeWant(d: Disk, want: Record, env: Env)
    ensures Fields(d, want, env, 4) == want
  {
    forall k ensures Fields(d, want, env, 4).Get(k) == want.Get(k) {
      FieldsAt(d, want, env, 4, k);
      AllReached(k);
    }
    SameRecord(Fields(d, want, env, 4), want);
  }

  /** Whether one of the first `n` keys has a new version. */
  predicate Changed(d: Disk, want: Record, env: Env, n: nat)
    requires n <= |KEYS|
  {
    exists k :: Reached(n, k) && Loaded(d, env).Get(k) != want.Get(k)
  }

  predicate FailedBefore(d: Disk, want: Record, env: Env, n: nat)
    requires n <= |KEYS|
  {
    exists k :: Reached(n, k) && JobFails(d, want, env, k)
  }

  lemma ReachNext(n: nat, k: Key)
    requires n < |KEYS|
    ensures Reached(n + 1, k) <==> Reached(n, k) || k == KEYS[n]
    ensures !Reached(n, KEYS[n])
  {
    assert KEYS[..n + 1] == KEYS[..n] + [KEYS[n]];
  }

  lemma NextKey(d: Disk, want: Record, env: Env, n: nat)
    requires n < |KEYS|
    ensures Changed(d, want, env, n + 1) <==>
            Changed(d, want, env, n) || Loaded(d, env).Get(KEYS[n]) != want.Get(KEYS[n])
    ensures FailedBefore(d, want, env, n + 1) <==>
            FailedBefore(d, want, env, n) || JobFails(d, want, env, KEYS[n])
    ensures Fields(d, want, env, n).Get(KEYS[n]) == Loaded(d, env).Get(KEYS[n])
  {
    forall k { ReachNext(n, k); }
    FieldsAt(d, want, env, n, KEYS[n]);
  }

  lemma LoopDone(d: Disk, want: Record, env: Env)
    ensures Changed(d, want, env, 4) <==> Loaded(d, env) != want
    ensures FailedBefore(d, want, env, 4) <==> AnyJobFails(d, want, env)
  {
    forall k ensures Reached(4, k) && k in KEYS { AllReached(k); }
    if forall k :: Loaded(d, env).Get(k) == want.Get(k) {
      SameRecord(Loaded(d, env), want);
    }
  }

  /** One turn of the loop, with the job that it starts, if any. */
  method HandleKey(versions: VersionsJSON, dir: TargetDir, want: Record, env: Env, ghost d: Disk, n: nat)
    returns (ok: bool)
    requires n < |KEYS| && dir.files == Files(d, want, env, n)
    requires versions.fields == Fields(d, want, env, n) && versions.needUpdateJSON == Changed(d, want, env, n)
    modifies versions, dir`files
    ensures dir.files == Files(d, want, env, n + 1)
    ensures versions.fields == Fields(d, want, env, n + 1)
    ensures versions.needUpdateJSON == Changed(d, want, env, n + 1)
    ensures FailedBefore(d, want, env, n + 1) <==> FailedBefore(d, want, env, n) || !ok
  {
    var k := KEYS[n];
    NextKey(d, want, env, n);
    ReachNext(n, k);
    FilesUntouched(d, want, env, n, k);
    ok := true;
    var exists_ := k in dir.files && k in env.visible;
    if !exists_ || versions.fields.Get(k) != want.Get(k) {
      versions.Set(k, want.Get(k));
      dir.files := RunJob(dir.files, k, want.Get(k), env.Job(k));
      ok := env.Job(k).Finished?;
    }
  }

  /** `handle` after the record was read. Each job is applied where it is started,
      which `AnyJobOrder` justifies; `Wait` then reports whether any of them failed. */
  method Handle(versions: VersionsJSON, dir: TargetDir, want: Record, env: Env, ghost d: Disk) returns (res: Result)
    requires !versions.needUpdateJSON && versions.fields == Loaded(d, env) && !ReadFails(d, env)
    requires dir.files == d.files && dir.record == Kept(d, env)
    modifies versions, dir
    ensures res == ResultOf(d, want, env) && dir.View() == Run(d, want, env)
  {
    var failed := false;
    for n := 0 to |KEYS|
      invariant dir.files == Files(d, want, env, n) && dir.record == Kept(d, env)
      invariant versions.fields == Fields(d, want, env, n)
      invariant versions.needUpdateJSON == Changed(d, want, env, n)
      invariant failed == FailedBefore(d, want, env, n)
    {
      var ok := HandleKey(versions, dir, want, env, d, n);
      failed := failed || !ok;
    }
    LoopDone(d, want, env);
    FieldsBecomeWant(d, want, env);
    if failed { return JobError; }
    var saved := versions.SaveToDisk(dir, env.saved);
    return if saved then Ok else SaveError;
  }

  /** A whole run, `newTarget` and `handle`, against the specification `Run`. */
  method Execute(dir: TargetDir, want: Record, env: Env) returns (res: Result)
    modifies dir
    ensures res == ResultOf(old(dir.View()), want, env)
    ensures dir.View() == Run(old(dir.View()), want, env)
  {
    ghost var d := dir.View();
    var versions := new VersionsJSON();
    var readOk := versions.Read(dir, env);
    if !readOk { return ReadError; }
    res := Handle(versions, dir, want, env, d);
  }

  lemma {:induction false} FilesUntouched(d: Disk, want: Record, env: Env, n: nat, k: Key)
    requires n <= |KEYS| && !Reached(n, k)
    ensures k in Files(d, want, env, n) <==> k in d.files
    ensures k in d.files ==> Files(d, want, env, n)[k] == d.files[k]
  {
    if n > 0 {
      ReachNext(n - 1, k);
      FilesUntouched(d, want, env, n - 1, k);
    }
  }

  // ------------------------------------------------------------- one run

  function At(files: map<Key, Image>, k: Key): Option<Image> {
    if k in files then Some(files[k]) else None
  }

  /** A file after the run, read off the disk before it. */
  function FileAfter(d: Disk, want: Record, env: Env, k: Key): Option<Image> {
    if !Scheduled(d, want, env, k) then At(d.files, k) else
    match env.Job(k)
    case Finished => Some(Image(want.Get(k), true))
    case Failed(Untouched) => At(d.files, k)
    case Failed(Missing) => None
    case Failed(Damaged) => Some(Image(want.Get(k), false))
  }

  lemma RunJobAt(files: map<Key, Image>, j: Key, v: string, outcome: Outcome, k: Key)
    ensures At(RunJob(files, j, v, outcome), k) ==
            if j != k then At(files, k) else
            match outcome
            case Finished => Some(Image(v, true))
            case Failed(Untouched) => At(files, k)
            case Failed(Missing) => None
            case Failed(Damaged) => Some(Image(v, false))
  {
  }

  lemma {:induction false} FilesAt(d: Disk, want: Record, env: Env, n: nat, k: Key)
    requires n <= |KEYS|
    ensures At(Files(d, want, env, n), k) ==
            if Reached(n, k) then FileAfter(d, want, env, k) else At(d.files, k)
  {
    if n > 0 {
      FilesAt(d, want, env, n - 1, k);
      ReachNext(n - 1, k);
      var j := KEYS[n - 1];
      RunJobAt(Files(d, want, env, n - 1), j, want.Get(j), env.Job(j), k);
    }
  }

  lemma RunFiles(d: Disk, want: Record, env: Env, k: Key)
    requires ResultOf(d, want, env) != ReadError
    ensures At(Run(d, want, env).files, k) == FileAfter(d, want, env, k)
  {
    FilesAt(d, want, env, 4, k);
    AllReached(k);
  }

  function JobsInOrder(files: map<Key, Image>, order: seq<Key>, want: Record, env: Env): map<Key, Image> {
    if order == [] then files else
      var k := order[|order| - 1];
      RunJob(JobsInOrder(files, order[..|order| - 1], want, env), k, want.Get(k), env.Job(k))
  }

  lemma {:induction false} JobsInOrderAt(d: Disk, order: seq<Key>, want: Record, env: Env, k: Key)
    requires forall i, j :: 0 <= i < j < |order| ==> order[i] != order[j]
    requires forall i :: 0 <= i < |order| ==> Scheduled(d, want, env, order[i])
    ensures At(JobsInOrder(d.files, order, want, env), k) ==
            if k in order then FileAfter(d, want, env, k) else At(d.files, k)
  {
    if order != [] {
      var prev, j := order[..|order| - 1], order[|order| - 1];
      JobsInOrderAt(d, prev, want, env, k);
      RunJobAt(JobsInOrder(d.files, prev, want, env), j, want.Get(j), env.Job(j), k);
      assert order == prev + [j];
    }
  }

  /** The jobs run concurrently; in whatever order the scheduled ones end, the
      files are the same. */
  lemma AnyJobOrder(d: Disk, want: Record, env: Env, order: seq<Key>)
    requires forall i, j :: 0 <= i < j < |order| ==> order[i] != order[j]
    requires forall k :: k in order <==> Scheduled(d, want, env, k)
    ensures JobsInOrder(d.files, order, want, env) == Files(d, want, env, 4)
  {
    var a, b := JobsInOrder(d.files, order, want, env), Files(d, want, env, 4);
    forall k ensures At(a, k) == At(b, k) {
      JobsInOrderAt(d, order, want, env, k);
      FilesAt(d, want, env, 4, k);
      AllReached(k);
    }
    SameFiles(a, b);
  }

  lemma SameFiles(a: map<Key, Image>, b: map<Key, Image>)
    requires forall k :: At(a, k) == At(b, k)
    ensures a == b
  {
    forall k ensures (k in a <==> k in b) && (k in a ==> a[k] == b[k]) {
      assert At(a, k) == At(b, k);
    }
  }

  /** A file that the next run with these versions would accept is intact. */
  predicate Trusted(d: Disk, want: Record) {
    d.record.Some? ==>
      forall k :: k in d.files && d.record.value.Get(k) == want.Get(k) ==> d.files[k] == Image(want.Get(k), true)
  }

  /** Every file is an intact image of its recorded version. */
  predicate Consistent(d: Disk) {
    d.record.Some? ==> forall k :: k in d.files ==> d.files[k] == Image(d.record.value.Get(k), true)
  }

  predicate Complete(d: Disk, want: Record) {
    d.record == Some(want) && forall k: Key :: At(d.files, k) == Some(Image(want.Get(k), true))
  }

  /** A successful run from a consistent directory leaves all four images present
      and intact for the requested versions, and recorded as such. */
  lemma SuccessCompletes(d: Disk, want: Record, env: Env)
    requires AllSet(want) && ResultOf(d, want, env) == Ok
    requires Consistent(d) || Trusted(d, want)
    ensures Complete(Run(d, want, env), want)
  {
    var d' := Run(d, want, env);
    forall k: Key ensures At(d'.files, k) == Some(Image(want.Get(k), true)) {
      RunFiles(d, want, env, k);
      AllReached(k);
      assert !JobFails(d, want, env, k);
    }
  }

  /** A complete directory is left alone: no job starts and nothing is written. */
  lemma CompleteIsStable(d: Disk, want: Record, env: Env)
    requires Complete(d, want) && env.readable && forall k: Key :: k in env.visible
    ensures forall k :: !Scheduled(d, want, env, k)
    ensures ResultOf(d, want, env) == Ok && Run(d, want, env) == d
  {
    forall k ensures !Scheduled(d, want, env, k) {
      assert At(d.files, k) == Some(Image(want.Get(k), true));
    }
    NothingScheduled(d, want, env, 4);
  }

  lemma {:induction false} NothingScheduled(d: Disk, want: Record, env: Env, n: nat)
    requires n <= |KEYS| && forall k :: !Scheduled(d, want, env, k)
    ensures Files(d, want, env, n) == d.files
  {
    if n > 0 {
      NothingScheduled(d, want, env, n - 1);
    }
  }

  // ------------------------------------------------------- when a run succeeds

  /** What makes an image be copied or created: it is not seen, or no readable record
      has its requested version. */
  predicate Redo(d: Disk, want: Record, env: Env, k: Key) {
    || k !in d.files || k !in env.visible
    || d.record == None || !env.readable || d.record.value.Get(k) != want.Get(k)
  }

  lemma RedoExactly(d: Disk, want: Record, env: Env, k: Key)
    requires AllSet(want)
    ensures Scheduled(d, want, env, k) <==> Redo(d, want, env, k)
  {
    assert EMPTY.Get(k) == "";
    assert want.Get(k) != "";
  }

  lemma JobErrorExactly(d: Disk, want: Record, env: Env)
    requires AllSet(want)
    ensures AnyJobFails(d, want, env) <==> exists k :: Redo(d, want, env, k) && env.Job(k) != Finished
  {
    forall k ensures k in KEYS && (Scheduled(d, want, env, k) <==> Redo(d, want, env, k)) {
      AllReached(k);
      RedoExactly(d, want, env, k);
    }
    if k :| Redo(d, want, env, k) && env.Job(k) != Finished {
      assert JobFails(d, want, env, k);
    }
  }

  /** How one run ends, from any directory, in terms of what is on disk and what the
      environment does. */
  lemma ResultExactly(d: Disk, want: Record, env: Env)
    requires AllSet(want)
    ensures var res := ResultOf(d, want, env);
            var readable := d.record == None || env.readable || env.removable;
            var failing := exists k :: Redo(d, want, env, k) && env.Job(k) != Finished;
            var stored := env.saved || (env.readable && d.record == Some(want));
            && (res == ReadError <==> !readable)
            && (res == JobError <==> readable && failing)
            && (res == SaveError <==> readable && !failing && !stored)
            && (res == Ok <==> readable && !failing && stored)
  {
    JobErrorExactly(d, want, env);
    assert want.Get(Kernel) != "" && EMPTY.Get(Kernel) == "";
  }

  /** What one run leaves on disk. */
  lemma EffectExactly(d: Disk, want: Record, env: Env, k: Key)
    requires AllSet(want)
    ensures var d' := Run(d, want, env);
            match ResultOf(d, want, env)
            case ReadError => d' == d
            case res =>
              && d'.record == (if res == Ok then Some(want) else if env.readable then d.record else None)
              && At(d'.files, k) ==
                   if !Redo(d, want, env, k) || env.Job(k) == Failed(Untouched) then At(d.files, k)
                   else if env.Job(k) == Failed(Missing) then None
                   else Some(Image(want.Get(k), env.Job(k) == Finished))
  {
    ResultExactly(d, want, env);
    RedoExactly(d, want, env, k);
    if ResultOf(d, want, env) != ReadError {
      RunFiles(d, want, env, k);
    }
  }

  /** The first start, in an empty directory, succeeds and completes it when the jobs
      finish and the record can be written. */
  lemma FirstStart(want: Record, env: Env)
    requires AllSet(want) && env.saved && forall k: Key :: env.Job(k) == Finished
    ensures var d := Disk(map[], None);
            ResultOf(d, want, env) == Ok && Complete(Run(d, want, env), want)
  {
    var d := Disk(map[], None);
    ResultExactly(d, want, env);
    NoRecordRedoesAll(d, want, env);
  }

  // --------------------------------------------------- runs that fail, repeated

  /** The record does not vouch for the key at the requested version. */
  predicate Stale(d: Disk, want: Record, k: Key) {
    d.record == None || d.record.value.Get(k) != want.Get(k)
  }

  function RunAll(d: Disk, want: Record, envs: seq<Env>): Disk
    decreases |envs|
  {
    if envs == [] then d else RunAll(Run(d, want, envs[0]), want, envs[1..])
  }

  predicate AllFail(d: Disk, want: Record, envs: seq<Env>)
    decreases |envs|
  {
    envs != [] ==>
      ResultOf(d, want, envs[0]) != Ok && AllFail(Run(d, want, envs[0]), want, envs[1..])
  }

  lemma StaleIsScheduled(d: Disk, want: Record, env: Env, k: Key)
    requires AllSet(want) && (Stale(d, want, k) || !env.readable)
    ensures Scheduled(d, want, env, k)
  {
  }

  /** Whatever happened in any number of failed runs, a key whose record was stale
      at the start is scheduled again by the next run, in every environment, and
      made valid by the first that succeeds. */
  lemma {:induction false} FailuresAreRetried(d: Disk, want: Record, envs: seq<Env>, env: Env, k: Key)
    requires AllSet(want) && Stale(d, want, k) && AllFail(d, want, envs)
    ensures var d' := RunAll(d, want, envs);
            && Stale(d', want, k)
            && Scheduled(d', want, env, k)
            && (ResultOf(d', want, env) == Ok ==>
                  At(Run(d', want, env).files, k) == Some(Image(want.Get(k), true)))
    decreases |envs|
  {
    if envs == [] {
      StaleIsScheduled(d, want, env, k);
      if ResultOf(d, want, env) == Ok {
        RunFiles(d, want, env, k);
        AllReached(k);
        assert !JobFails(d, want, env, k);
      }
    } else {
      FailuresAreRetried(Run(d, want, envs[0]), want, envs[1..], env, k);
    }
  }

  /** Without a usable record all four images are made again, so that a success
      completes the directory whatever the files were. */
  lemma NoRecordRedoesAll(d: Disk, want: Record, env: Env)
    requires AllSet(want) && (d.record == None || !env.readable)
    ensures forall k :: Scheduled(d, want, env, k)
    ensures ResultOf(d, want, env) == Ok ==> Complete(Run(d, want, env), want)
  {
    forall k ensures Scheduled(d, want, env, k) {
      StaleIsScheduled(d, want, env, k);
    }
    if ResultOf(d, want, env) == Ok {
      forall k: Key ensures At(Run(d, want, env).files, k) == Some(Image(want.Get(k), true)) {
        RunFiles(d, want, env, k);
        AllReached(k);
        assert !JobFails(d, want, env, k);
      }
      assert Loaded(d, env).Get(Kernel) != want.Get(Kernel);
    }
  }

  /** No job that restores a missing file of an already recorded version breaks off
      half way: its file would look up to date. */
  predicate NoSilentDamage(d: Disk, want: Record, env: Env) {
    Kept(d, env).Some? ==>
      forall k :: Kept(d, env).value.Get(k) == want.Get(k) && Scheduled(d, want, env, k)
                  ==> env.Job(k) != Failed(Damaged)
  }

  /** A failed run keeps the directory trustworthy exactly when no restoring job
      leaves a half-written file. */
  lemma FailedRunTrust(d: Disk, want: Record, env: Env)
    requires AllSet(want) && Trusted(d, want)
    requires ResultOf(d, want, env) in {JobError, SaveError}
    ensures Trusted(Run(d, want, env), want) <==> NoSilentDamage(d, want, env)
  {
    var d' := Run(d, want, env);
    forall k ensures At(d'.files, k) == FileAfter(d, want, env, k) {
      RunFiles(d, want, env, k);
    }
    if !NoSilentDamage(d, want, env) {
      var k :| Kept(d, env).value.Get(k) == want.Get(k) && Scheduled(d, want, env, k)
               && env.Job(k) == Failed(Damaged);
      assert At(d'.files, k) == Some(Image(want.Get(k), false));
    }
    if NoSilentDamage(d, want, env) && d'.record.Some? {
      forall k | k in d'.files && d'.record.value.Get(k) == want.Get(k)
        ensures d'.files[k] == Image(want.Get(k), true)
      {
        assert At(d'.files, k) == FileAfter(d, want, env, k);
      }
    }
  }

  /** What can be checked before a run: every image of an already recorded version is
      there and `Stat` succeeds on it, so that no job will have to restore one. */
  predicate Guarded(d: Disk, want: Record, seen: set<Key>) {
    forall k :: Stale(d, want, k) || (k in d.files && k in seen)
  }

  /** Every failing run in which `Stat` succeeds on the files of `seen` keeps trust. */
  ghost predicate FailureSafe(d: Disk, want: Record, seen: set<Key>) {
    forall env: Env :: env.visible == seen && ResultOf(d, want, env) != Ok ==> Trusted(Run(d, want, env), want)
  }

  lemma GuardedKept(d: Disk, want: Record, env: Env, seen: set<Key>)
    requires AllSet(want) && Trusted(d, want) && Guarded(d, want, seen)
    requires seen <= env.visible && ResultOf(d, want, env) != Ok
    ensures Trusted(Run(d, want, env), want) && Guarded(Run(d, want, env), want, seen)
  {
    if ResultOf(d, want, env) != ReadError {
      FailedRunTrust(d, want, env);
      forall k ensures Stale(Run(d, want, env), want, k) || (k in Run(d, want, env).files && k in seen) {
        RunFiles(d, want, env, k);
      }
    }
  }

  /** The environment in which the job for `k` breaks off half way. */
  function Breaking(k: Key, seen: set<Key>): Env {
    Env(true, true, seen, map[k := Failed(Damaged)], true)
  }

  lemma UnguardedBreaks(d: Disk, want: Record, k: Key, seen: set<Key>)
    requires AllSet(want) && Trusted(d, want) && !Stale(d, want, k) && !(k in d.files && k in seen)
    ensures ResultOf(d, want, Breaking(k, seen)) == JobError
    ensures !Trusted(Run(d, want, Breaking(k, seen)), want)
  {
    var env := Breaking(k, seen);
    assert k in KEYS by { assert KEYS[0] == Kernel && KEYS[1] == Initrd && KEYS[2] == Rootfs && KEYS[3] == Data; }
    assert JobFails(d, want, env, k);
    assert !NoSilentDamage(d, want, env);
    FailedRunTrust(d, want, env);
  }

  /** A trustworthy directory survives every failing run exactly when, before the run,
      each key's record is stale or its file is there and can be looked at. */
  lemma FailureSafeExactly(d: Disk, want: Record, seen: set<Key>)
    requires AllSet(want) && Trusted(d, want)
    ensures FailureSafe(d, want, seen) <==> Guarded(d, want, seen)
  {
    if Guarded(d, want, seen) {
      forall env: Env | env.visible == seen && ResultOf(d, want, env) != Ok ensures Trusted(Run(d, want, env), want) {
        GuardedKept(d, want, env, seen);
      }
    } else {
      var k :| !Stale(d, want, k) && !(k in d.files && k in seen);
      UnguardedBreaks(d, want, k, seen);
      assert Breaking(k, seen).visible == seen;
    }
  }

  /** From such a directory any number of runs may fail in any way, as long as they can
      look at those files: the first success completes it. */
  lemma {:induction false} GuardedSuccessCompletes(
    d: Disk, want: Record, seen: set<Key>, envs: seq<Env>, env: Env)
    requires AllSet(want) && Trusted(d, want) && Guarded(d, want, seen)
    requires AllFail(d, want, envs) && forall i :: 0 <= i < |envs| ==> seen <= envs[i].visible
    requires ResultOf(RunAll(d, want, envs), want, env) == Ok
    ensures Complete(Run(RunAll(d, want, envs), want, env), want)
    decreases |envs|
  {
    if envs == [] {
      SuccessCompletes(d, want, env);
    } else {
      GuardedKept(d, want, envs[0], seen);
      GuardedSuccessCompletes(Run(d, want, envs[0]), want, seen, envs[1..], env);
    }
  }

  predicate NeverSilent(d: Disk, want: Record, envs: seq<Env>)
    decreases |envs|
  {
    envs != [] ==>
      NoSilentDamage(d, want, envs[0]) && NeverSilent(Run(d, want, envs[0]), want, envs[1..])
  }

  /** After any number of failed runs without silent damage, the first success
      completes the directory. */
  lemma {:induction false} EventualSuccessCompletes(d: Disk, want: Record, envs: seq<Env>, env: Env)
    requires AllSet(want) && Trusted(d, want) && AllFail(d, want, envs) && NeverSilent(d, want, envs)
    requires ResultOf(RunAll(d, want, envs), want, env) == Ok
    ensures Complete(Run(RunAll(d, want, envs), want, env), want)
    decreases |envs|
  {
    if envs == [] {
      SuccessCompletes(d, want, env);
    } else {
      if ResultOf(d, want, envs[0]) != ReadError {
        FailedRunTrust(d, want, envs[0]);
      }
      EventualSuccessCompletes(Run(d, want, envs[0]), want, envs[1..], env);
    }
  }

  /** The condition is needed: a kernel whose restoring copy broke off is accepted
      by the next run, which reports success. */
  lemma DamagedImageAccepted(want: Record)
    requires AllSet(want)
    ensures var d := Disk(map[Initrd := Image(want.initrd, true), Rootfs := Image(want.rootfs, true),
                              Data := Image(want.data, true)], Some(want));
            var bad := Env(true, true, {Kernel, Initrd, Rootfs, Data}, map[Kernel := Failed(Damaged)], true);
            var good := bad.(jobs := map[]);
            var d' := Run(d, want, bad);
            && Consistent(d) && ResultOf(d, want, bad) == JobError
            && ResultOf(d', want, good) == Ok
            && At(Run(d', want, good).files, Kernel) == Some(Image(want.kernel, false))
  {
    var d := Disk(map[Initrd := Image(want.initrd, true), Rootfs := Image(want.rootfs, true),
                      Data := Image(want.data, true)], Some(want));
    var bad := Env(true, true, {Kernel, Initrd, Rootfs, Data}, map[Kernel := Failed(Damaged)], true);
    var good := bad.(jobs := map[]);
    AllReached(Kernel);
    assert JobFails(d, want, bad, Kernel) && Kernel in KEYS;
    var d' := Run(d, want, bad);
    forall k: Key ensures At(d'.files, k) == Some(Image(want.Get(k), k != Kernel)) {
      RunFiles(d, want, bad, k);
    }
    forall k ensures !Scheduled(d', want, good, k) {
      assert At(d'.files, k) == Some(Image(want.Get(k), k != Kernel));
    }
    RunFiles(d', want, good, Kernel);
  }

  // ------------------------------------------------------------ the data image

  datatype Attempt = Attempt(want: Record, env: Env)

  function RunAttempts(d: Disk, attempts: seq<Attempt>): Disk
    decreases |attempts|
  {
    if attempts == [] then d else RunAttempts(Run(d, attempts[0].want, attempts[0].env), attempts[1..])
  }

  /** The data image is spared by a run exactly when the file is seen and a readable
      record has the requested version for it. */
  lemma DataSparedExactly(d: Disk, want: Record, env: Env)
    requires AllSet(want)
    ensures !Scheduled(d, want, env, Data) <==>
            && Data in d.files && Data in env.visible
            && d.record.Some? && env.readable && d.record.value.data == want.data
  {
    assert want.Get(Data) != "";
  }

  /** Over any sequence of runs that request data version `v` the data image stays
      the same file and its recorded version stays `v`, whatever happens to the
      other three keys, as long as the record can be read and the file be seen. */
  lemma {:induction false} DataImageKept(d: Disk, v: string, attempts: seq<Attempt>)
    requires Data in d.files && d.record.Some? && d.record.value.data == v
    requires forall i :: 0 <= i < |attempts| ==>
                           && AllSet(attempts[i].want) && attempts[i].want.data == v
                           && attempts[i].env.readable && Data in attempts[i].env.visible
    ensures var d' := RunAttempts(d, attempts);
            && At(d'.files, Data) == At(d.files, Data)
            && d'.record.Some? && d'.record.value.data == v
            && forall want: Record, env: Env ::
                 AllSet(want) && want.data == v && env.readable && Data in env.visible
                 ==> !Scheduled(d', want, env, Data)
    decreases |attempts|
  {
    if attempts != [] {
      var a := attempts[0];
      var d1 := Run(d, a.want, a.env);
      RunFiles(d, a.want, a.env, Data);
      DataSparedExactly(d, a.want, a.env);
      assert At(d1.files, Data) == At(d.files, Data);
      DataImageKept(d1, v, attempts[1..]);
    }
  }

  predicate NeverRecreated(d: Disk, attempts: seq<Attempt>)
    decreases |attempts|
  {
    attempts != [] ==>
      && !Scheduled(d, attempts[0].want, attempts[0].env, Data)
      && NeverRecreated(Run(d, attempts[0].want, attempts[0].env), attempts[1..])
  }

  predicate Finds(a: Attempt) { a.env.readable && Data in a.env.visible }

  /** Over any sequence of runs that request the recorded data version, the job that
      removes and recreates the data image never runs exactly when every run can read
      the record and look at the file. */
  lemma {:induction false} NeverRecreatedExactly(d: Disk, v: string, attempts: seq<Attempt>)
    requires Data in d.files && d.record.Some? && d.record.value.data == v
    requires forall i :: 0 <= i < |attempts| ==> AllSet(attempts[i].want) && attempts[i].want.data == v
    ensures NeverRecreated(d, attempts) <==> forall i :: 0 <= i < |attempts| ==> Finds(attempts[i])
    decreases |attempts|
  {
    if attempts != [] {
      var a, rest := attempts[0], attempts[1..];
      DataSparedExactly(d, a.want, a.env);
      assert attempts == [a] + rest;
      if Finds(a) {
        DataImageKept(d, v, [a]);
        var d1 := Run(d, a.want, a.env);
        assert RunAttempts(d, [a]) == d1 by { assert [a][1..] == []; }
        assert Data in d1.files by { assert At(d1.files, Data) == At(d.files, Data); }
        NeverRecreatedExactly(d1, v, rest);
      }
    }
  }

  /** One run that cannot read the record or look at the file recreates the image of a
      complete directory, and reports success. */
  lemma DataRecreated(d: Disk, want: Record, env: Env)
    requires AllSet(want) && Complete(d, want) && !(env.readable && Data in env.visible)
    requires env.removable && env.jobs == map[] && env.saved
    ensures Scheduled(d, want, env, Data) && ResultOf(d, want, env) == Ok
    ensures Complete(Run(d, want, env), want)
  {
    DataSparedExactly(d, want, env);
    if env.readable {
      SuccessCompletes(d, want, env);
    } else {
      NoRecordRedoesAll(d, want, env);
    }
  }
}

/** A size- and time-rotated log file. Writes go to the current file; a write that finds the
    file too old, from another day or too large first renames it to a dated backup and opens a
    fresh one, and a background sweep removes backups older than the back time. The clock and
    the file system are inputs: times are nanosecond counts, and a Calendar formats them. */
module LogRotate {
  import opened Wrappers
  import opened Strings

  const K := 1024
  const M := 1024 * 1024
  const G := 1024 * 1024 * 1024

  const Hour := 3_600_000_000_000
  const Day := 24 * Hour
  const Week := 7 * Day

  /** fileSize's answer when the file cannot be examined: math.MinInt64. */
  const MinInt64 := -0x8000_0000_0000_0000

  // ---- options ----

  /** Options, as a value: rotateTime and backTime are durations in nanoseconds. */
  datatype Settings = Settings(rotateTime: int, backTime: int, rotateSize: int)

  datatype RotateOption = WithBackTime(b: int) | WithRotateTime(r: int) | WithRotateSize(s: int)

  /** What one option's closure does: it sets its own field. */
  function SetOption(o: Settings, opt: RotateOption): Settings
  {
    match opt
    case WithBackTime(b) => o.(backTime := b)
    case WithRotateTime(r) => o.(rotateTime := r)
    case WithRotateSize(n) => o.(rotateSize := n)
  }

  /** The options applied in order. */
  function SetAll(opts: seq<RotateOption>, o: Settings): Settings
  {
    if |opts| == 0 then o else SetOption(SetAll(opts[..|opts| - 1], o), opts[|opts| - 1])
  }

  /** Options.apply: a zero field gets its default (one week, one day, one gigabyte); a
      non-zero one is kept. */
  function Defaults(o: Settings): (r: Settings)
    ensures r.backTime != 0 && r.rotateTime != 0 && r.rotateSize != 0
    ensures o.backTime != 0 ==> r.backTime == o.backTime
    ensures o.rotateTime != 0 ==> r.rotateTime == o.rotateTime
    ensures o.rotateSize != 0 ==> r.rotateSize == o.rotateSize
  {
    Settings(if o.rotateTime == 0 then Day else o.rotateTime,
             if o.backTime == 0 then Week else o.backTime,
             if o.rotateSize == 0 then G else o.rotateSize)
  }

  /** Defaults applied twice change nothing more. */
  lemma DefaultsIdempotent(o: Settings)
    ensures Defaults(Defaults(o)) == Defaults(o)
  {
  }

  /** NewRotateFile's settings: the options over the zero Options, then the defaults. */
  function Configured(opts: seq<RotateOption>): Settings
  {
    Defaults(SetAll(opts, Settings(0, 0, 0)))
  }

  /** With no option, a file rotates daily or at one gigabyte and keeps a week of backups. */
  lemma ConfiguredNone()
    ensures Configured([]) == Settings(Day, Week, G)
  {
  }

  /** The last option wins its field, an explicit zero still gets the default, and the other
      fields are as the earlier options left them. */
  lemma ConfiguredLastWins(opts: seq<RotateOption>, opt: RotateOption)
    ensures opt.WithRotateTime? ==>
              Configured(opts + [opt]) == Configured(opts).(rotateTime := if opt.r == 0 then Day else opt.r)
    ensures opt.WithBackTime? ==>
              Configured(opts + [opt]) == Configured(opts).(backTime := if opt.b == 0 then Week else opt.b)
    ensures opt.WithRotateSize? ==>
              Configured(opts + [opt]) == Configured(opts).(rotateSize := if opt.s == 0 then G else opt.s)
  {
    assert (opts + [opt])[..|opts|] == opts;
  }

  /** Options: the struct NewRotateFile builds and the option closures mutate. */
  class Options {
    var rotateTime: int
    var backTime: int
    var rotateSize: int

    constructor ()
      ensures Snapshot() == Settings(0, 0, 0)
    {
      rotateTime, backTime, rotateSize := 0, 0, 0;
    }

    function Snapshot(): Settings
      reads this
    {
      Settings(rotateTime, backTime, rotateSize)
    }

    /** o(&ops): run one option's closure. */
    method Set(opt: RotateOption)
      modifies this
      ensures Snapshot() == SetOption(old(Snapshot()), opt)
    {
      match opt {
        case WithBackTime(b) => backTime := b;
        case WithRotateTime(r) => rotateTime := r;
        case WithRotateSize(n) => rotateSize := n;
      }
    }

    method Apply()
      modifies this
      ensures Snapshot() == Defaults(old(Snapshot()))
    {
      if backTime == 0 {
        backTime := Week;
      }
      if rotateTime == 0 {
        rotateTime := Day;
      }
      if rotateSize == 0 {
        rotateSize := G;
      }
    }
  }

  // ---- names ----

  /** Time formatting: the "2006-01-02" date and the "150405" clock of an instant. */
  datatype Calendar = Calendar(date: int -> string, clock: int -> string)

  predicate IsSameDay(l: int, r: int, cal: Calendar)
  {
    cal.date(l) == cal.date(r)
  }

  /** genFileName: the current name, a dot, the date, a dot and the clock. */
  function GenFileName(curFn: string, t: int, cal: Calendar): string
  {
    curFn + "." + cal.date(t) + "." + cal.clock(t)
  }

  /** Every backup name sorts after the current file's own name, so the sweep's `f != curFn`
      test is what keeps the live file from being removed. */
  lemma CurrentSortsBeforeBackups(curFn: string, t: int, cal: Calendar)
    ensures Less(curFn, GenFileName(curFn, t, cal))
  {
    var g := GenFileName(curFn, t, cal);
    assert g[..|curFn|] == curFn;
    ProperPrefixLess(curFn, g);
  }

  // ---- the backup sweep ----

  /** The files the sweep removes: in input order, those that are not the current file and sort
      before `cutoff`. */
  function BackFiles(files: seq<string>, curFn: string, cutoff: string): (bf: seq<string>)
    ensures |bf| <= |files|
  {
    if |files| == 0 then []
    else
      var init := BackFiles(files[..|files| - 1], curFn, cutoff);
      var f := files[|files| - 1];
      if f != curFn && Less(f, cutoff) then init + [f] else init
  }

  /** A file is swept exactly when it is listed, is not the current file and sorts before the
      cutoff. */
  lemma {:induction false} BackFilesMembers(files: seq<string>, curFn: string, cutoff: string, f: string)
    ensures f in BackFiles(files, curFn, cutoff) <==> f in files && f != curFn && Less(f, cutoff)
  {
    if |files| > 0 {
      var init := files[..|files| - 1];
      BackFilesMembers(init, curFn, cutoff, f);
      assert files == init + [files[|files| - 1]];
    }
  }

  /** The current file is never swept. */
  lemma CurrentNeverSwept(files: seq<string>, curFn: string, cutoff: string)
    ensures curFn !in BackFiles(files, curFn, cutoff)
  {
    BackFilesMembers(files, curFn, cutoff, curFn);
  }

  /** filterBackFiles: the cutoff is the backup name the current file would get `backTime` ago. */
  method FilterBackFiles(files: seq<string>, curFn: string, backTime: int, now: int, cal: Calendar)
    returns (bf: seq<string>)
    ensures bf == BackFiles(files, curFn, GenFileName(curFn, now - backTime, cal))
  {
    var cutoff := GenFileName(curFn, now - backTime, cal);
    bf := [];
    var i := 0;
    while i < |files|
      invariant 0 <= i <= |files|
      invariant bf == BackFiles(files[..i], curFn, cutoff)
    {
      var f := files[i];
      if f != curFn && Less(f, cutoff) {
        bf := bf + [f];
      }
      i := i + 1;
      assert files[..i][..i - 1] == files[..i - 1];
    }
    assert files[..i] == files;
  }

  // ---- writing ----

  /** An open file: its path and the instant it was opened. */
  datatype Handle = Handle(path: string, openedAt: int)

  /** RotateFile's fields, as a value. */
  datatype State = State(outFh: Option<Handle>, curFn: string, lastRotateTime: int,
                         rotateSize: int, rotateTime: int, backTime: int)

  /** What the file system answers during one write: whether the current file exists, its size
      if it can be examined, and whether the rename and the open fail. */
  datatype Disk = Disk(present: bool, size: Option<int>, renameFails: bool, openFails: bool)

  datatype Error = OpenError | RenameError | ErrInvalid

  /** The outcome of write_nolock: the new fields, the error, and the backup name the current
      file was renamed to, if it was. */
  datatype Step = Step(state: State, err: Option<Error>, renamedTo: Option<string>)

  /** fileSize: the size, or MinInt64 when the file cannot be examined. */
  function FileSize(d: Disk): int
  {
    match d.size
    case None => MinInt64
    case Some(n) => n
  }

  /** The test under which write_nolock keeps writing to the current file. */
  predicate Keeps(s: State, now: int, size: int, cal: Calendar)
  {
    now - s.lastRotateTime < s.rotateTime && IsSameDay(now, s.lastRotateTime, cal) && s.rotateSize > size
  }

  /** createFile: a successful open replaces the handle and restarts the rotation clock; a
      failed one changes nothing. */
  function Create(s: State, d: Disk, now: int): (r: (State, Option<Error>))
    ensures r.1.None? <==> !d.openFails
    ensures r.1.None? ==> r.0 == s.(outFh := Some(Handle(s.curFn, now)), lastRotateTime := now)
    ensures r.1.Some? ==> r.0 == s
  {
    if d.openFails then (s, Some(OpenError))
    else (s.(outFh := Some(Handle(s.curFn, now)), lastRotateTime := now), None)
  }

  /** The rotation itself: restart the clock, rename the current file to its backup name, and
      open a fresh one; a failed rename stops after the clock was restarted. */
  function Rotate(s: State, d: Disk, now: int, cal: Calendar): Step
  {
    var s1 := s.(lastRotateTime := now);
    if d.renameFails then Step(s1, Some(RenameError), None)
    else
      var c := Create(s1, d, now);
      Step(c.0, c.1, Some(GenFileName(s.curFn, now, cal)))
  }

  /** write_nolock as written: an existing file is kept whenever no rotation is due, even when
      no handle to it was ever opened. */
  function PrepareAsWritten(s: State, d: Disk, now: int, cal: Calendar): Step
  {
    if !d.present then
      var c := Create(s, d, now);
      Step(c.0, c.1, None)
    else if Keeps(s, now, FileSize(d), cal) then Step(s, None, None)
    else Rotate(s, d, now, cal)
  }

  /** write_nolock corrected: when no rotation is due and no handle is open yet, the current
      file is opened (for appending) instead of being kept unopened; a rotation that is due
      happens as written. */
  function Prepare(s: State, d: Disk, now: int, cal: Calendar): Step
  {
    if !d.present then
      var c := Create(s, d, now);
      Step(c.0, c.1, None)
    else if Keeps(s, now, FileSize(d), cal) then
      if s.outFh.Some? then Step(s, None, None)
      else
        var c := Create(s, d, now);
        Step(c.0, c.1, None)
    else Rotate(s, d, now, cal)
  }

  /** write: write_nolock, then the write through the handle; a missing handle gives
      os.ErrInvalid. */
  function Written(step: Step, p: seq<bv8>): (nerr: (nat, Option<Error>))
  {
    if step.err.Some? then (0, step.err)
    else if step.state.outFh.None? then (0, Some(ErrInvalid))
    else (|p|, None)
  }

  /** With the file present, the rotation decision: no rotation exactly when the file is young
      enough, from today and small enough; then nothing changes if a handle is open, and the
      file is opened for appending if none is. Otherwise the clock restarts and the file is
      renamed to its backup name and a fresh one opened, whether or not a handle was open.
      A failed rename stops there with its error; a failed open keeps the old handle and
      reports its error after the rename. */
  lemma RotationDecision(s: State, d: Disk, now: int, cal: Calendar)
    requires d.present
    ensures Keeps(s, now, FileSize(d), cal) && s.outFh.Some? ==> Prepare(s, d, now, cal) == Step(s, None, None)
    ensures Keeps(s, now, FileSize(d), cal) && s.outFh.None? ==>
              Prepare(s, d, now, cal) == Step(Create(s, d, now).0, Create(s, d, now).1, None)
    ensures !Keeps(s, now, FileSize(d), cal) ==>
              Prepare(s, d, now, cal).state.lastRotateTime == now &&
              Prepare(s, d, now, cal).renamedTo == (if d.renameFails then None else Some(GenFileName(s.curFn, now, cal)))
    ensures !Keeps(s, now, FileSize(d), cal) && !d.renameFails && !d.openFails ==>
              Prepare(s, d, now, cal) == Step(s.(outFh := Some(Handle(s.curFn, now)), lastRotateTime := now),
                                              None, Some(GenFileName(s.curFn, now, cal)))
    ensures !Keeps(s, now, FileSize(d), cal) && d.renameFails ==>
              Prepare(s, d, now, cal) == Step(s.(lastRotateTime := now), Some(RenameError), None)
    ensures !Keeps(s, now, FileSize(d), cal) && !d.renameFails && d.openFails ==>
              Prepare(s, d, now, cal) == Step(s.(lastRotateTime := now), Some(OpenError), Some(GenFileName(s.curFn, now, cal)))
  {
  }

  /** An unreadable size never triggers a rotation by itself. */
  lemma UnreadableSizeKeeps(s: State, now: int, cal: Calendar)
    requires s.rotateSize > MinInt64
    ensures Keeps(s, now, FileSize(Disk(true, None, false, false)), cal) <==>
              now - s.lastRotateTime < s.rotateTime && IsSameDay(now, s.lastRotateTime, cal)
  {
  }

  /** A missing current file is created, never renamed. */
  lemma MissingFileCreated(s: State, d: Disk, now: int, cal: Calendar)
    requires !d.present
    ensures Prepare(s, d, now, cal).renamedTo.None?
    ensures Prepare(s, d, now, cal).err.None? <==> !d.openFails
    ensures !d.openFails ==> Prepare(s, d, now, cal).state.outFh == Some(Handle(s.curFn, now))
  {
  }

  /** The state NewRotateFile builds: no handle yet, the rotation clock started now. */
  function Fresh(path: string, opts: seq<RotateOption>, now: int): State
  {
    var o := Configured(opts);
    State(None, path, now, o.rotateSize, o.rotateTime, o.backTime)
  }

  /** As written, a rotate file created over an existing log file fails its first write: no
      rotation is due, so no handle is opened, and the write finds none. */
  lemma ExistingFileWriteFails(path: string, now: int, cal: Calendar, p: seq<bv8>)
    ensures Written(PrepareAsWritten(Fresh(path, [], now), Disk(true, Some(0), false, false), now, cal), p)
            == (0, Some(ErrInvalid))
  {
    ConfiguredNone();
  }

  /** Corrected, a write that gets past write_nolock always has a handle, so ErrInvalid never
      happens and every byte is reported written. */
  lemma PreparedWriteSucceeds(s: State, d: Disk, now: int, cal: Calendar, p: seq<bv8>)
    ensures Prepare(s, d, now, cal).err.None? ==> Prepare(s, d, now, cal).state.outFh.Some?
    ensures Written(Prepare(s, d, now, cal), p).1 != Some(ErrInvalid)
    ensures Written(Prepare(s, d, now, cal), p).1.None? ==> Written(Prepare(s, d, now, cal), p).0 == |p|
  {
  }

  /** The two agree whenever a handle is open. */
  lemma PrepareAgreesWithHandle(s: State, d: Disk, now: int, cal: Calendar)
    requires s.outFh.Some?
    ensures Prepare(s, d, now, cal) == PrepareAsWritten(s, d, now, cal)
  {
  }

  /** The correction changes only the case the bug is about: wherever write_nolock as written
      ends with an error or with a handle, the corrected one ends the same way, and where they
      differ, as written leaves no handle and no error while the corrected one opens the file
      without renaming it. */
  lemma PrepareDiffersOnlyWhenUnopened(s: State, d: Disk, now: int, cal: Calendar)
    ensures PrepareAsWritten(s, d, now, cal).err.Some? || PrepareAsWritten(s, d, now, cal).state.outFh.Some? ==>
              Prepare(s, d, now, cal) == PrepareAsWritten(s, d, now, cal)
    ensures Prepare(s, d, now, cal) != PrepareAsWritten(s, d, now, cal) ==>
              PrepareAsWritten(s, d, now, cal) == Step(s, None, None) && s.outFh.None? &&
              Prepare(s, d, now, cal).renamedTo.None?
  {
  }

  /** A first write over an existing file that is due for rotation renames it to its backup
      name and opens a fresh one, both as written and corrected. */
  lemma FirstWriteRotatesDueFile(s: State, d: Disk, now: int, cal: Calendar)
    requires s.outFh.None? && d.present && !d.renameFails && !d.openFails
    requires !Keeps(s, now, FileSize(d), cal)
    ensures Prepare(s, d, now, cal) == PrepareAsWritten(s, d, now, cal)
    ensures Prepare(s, d, now, cal) == Step(s.(outFh := Some(Handle(s.curFn, now)), lastRotateTime := now),
                                            None, Some(GenFileName(s.curFn, now, cal)))
  {
  }

  /** RotateFile: the fields write_nolock and createFile update in place. */
  class RotateFile {
    var outFh: Option<Handle>
    var curFn: string
    var lastRotateTime: int
    var rotateSize: int
    var rotateTime: int
    var backTime: int

    constructor (s: State)
      ensures Snapshot() == s
    {
      outFh, curFn, lastRotateTime := s.outFh, s.curFn, s.lastRotateTime;
      rotateSize, rotateTime, backTime := s.rotateSize, s.rotateTime, s.backTime;
    }

    function Snapshot(): State
      reads this
    {
      State(outFh, curFn, lastRotateTime, rotateSize, rotateTime, backTime)
    }

    method CreateFile(d: Disk, now: int) returns (err: Option<Error>)
      modifies this
      ensures (Snapshot(), err) == Create(old(Snapshot()), d, now)
    {
      if d.openFails {
        return Some(OpenError);
      }
      outFh := Some(Handle(curFn, now));
      lastRotateTime := now;
      err := None;
    }

    /** write_nolock, corrected as Prepare. */
    method WriteNoLock(d: Disk, now: int, cal: Calendar) returns (err: Option<Error>, renamedTo: Option<string>)
      modifies this
      ensures Step(Snapshot(), err, renamedTo) == Prepare(old(Snapshot()), d, now, cal)
    {
      renamedTo := None;
      if !d.present {
        err := CreateFile(d, now);
        return;
      }
      if now - lastRotateTime < rotateTime && IsSameDay(now, lastRotateTime, cal) && rotateSize > FileSize(d) {
        if outFh.None? {
          err := CreateFile(d, now);
          return;
        }
        return None, None;
      }
      lastRotateTime := now;
      var oldFn := GenFileName(curFn, now, cal);
      if d.renameFails {
        return Some(RenameError), None;
      }
      renamedTo := Some(oldFn);
      err := CreateFile(d, now);
    }

    /** Write: write_nolock, then the bytes through the handle. */
    method Write(p: seq<bv8>, d: Disk, now: int, cal: Calendar) returns (n: nat, err: Option<Error>)
      modifies this
      ensures Snapshot() == Prepare(old(Snapshot()), d, now, cal).state
      ensures (n, err) == Written(Prepare(old(Snapshot()), d, now, cal), p)
      ensures err != Some(ErrInvalid)
    {
      ghost var s := Snapshot();
      var renamedTo;
      err, renamedTo := WriteNoLock(d, now, cal);
      PreparedWriteSucceeds(s, d, now, cal, p);
      if err.Some? {
        return 0, err;
      }
      // write_nolock succeeded, so a handle is open: os.ErrInvalid cannot arise here
      return |p|, None;
    }
  }

  /** NewRotateFile: the options in order over a zero Options, then the defaults; the file is
      not opened until the first write. */
  method NewRotateFile(path: string, opts: seq<RotateOption>, now: int) returns (r: RotateFile)
    ensures fresh(r)
    ensures r.Snapshot() == Fresh(path, opts, now)
  {
    var ops := new Options();
    var i := 0;
    while i < |opts|
      invariant 0 <= i <= |opts|
      invariant ops.Snapshot() == SetAll(opts[..i], Settings(0, 0, 0))
    {
      ops.Set(opts[i]);
      i := i + 1;
      assert opts[..i][..i - 1] == opts[..i - 1];
    }
    assert opts[..i] == opts;
    ops.Apply();
    r := new RotateFile(State(None, path, now, ops.rotateSize, ops.rotateTime, ops.backTime));
  }
}

/** How a message's files get onto the disk when saves of one id may overlap:
    the steps of FileStore.Save for one id, any number of writers, crashes
    between any two steps, and the commit of the message row afterwards. */
module SaveProtocol {
  import opened Options
  import opened BroadcastRows

  /** An existing but incomplete directory is only repaired when it is older. */
  const REPAIR_GRACE: Time := 5_000_000

  /** A file in the message's directory; not whole until its writer is done. */
  datatype File = File(owner: nat, whole: bool)

  /** `modified` changes when an entry is added, not when a file is filled. */
  datatype Directory = Missing | Directory(modified: Time, raw: Option<File>, metadata: Option<File>)

  datatype Pc =
    | Make | Inspect | TryLoad | Remove | Remake
    | CreateRaw | FillRaw | CreateMetadata | FillMetadata
    | CleanUp | Insert | Over

  /** A writer and when the claim was made under which it saves. */
  datatype Writer = Writer(pc: Pc, since: Time)

  datatype World = World(clock: Time, dir: Directory, message: bool, writers: map<nat, Writer>, lastClaim: Option<Time>)

  datatype Action =
    | Begin(writer: nat)
    | Step(writer: nat, ok: bool)
    | Crash(writer: nat)
    | Tick(elapsed: nat)

  predicate Whole(f: Option<File>) {
    f.Some? && f.value.whole
  }

  predicate Complete(d: Directory) {
    d.Directory? && Whole(d.raw) && Whole(d.metadata)
  }

  /** Load reads valid metadata and whatever raw file there is. */
  predicate Loads(d: Directory) {
    d.Directory? && Whole(d.metadata) && d.raw.Some?
  }

  function Mkdir(d: Directory, now: Time): Directory {
    if d.Missing? then Directory(now, None, None) else d
  }

  /** A writer fills the file it has opened: if that was removed, nothing shows. */
  function Filled(f: Option<File>, e: nat): Option<File> {
    if f == Some(File(e, false)) then Some(File(e, true)) else f
  }

  /** One statement of Save and of its caller. `ok` is the operating system's
      word on it; exclusive creation fails on its own when the file is there. */
  function Next(w: World, e: nat, pc: Pc, ok: bool): (Directory, bool, Pc) {
    var d := w.dir;
    match pc
    case Make =>
      if !ok then (d, w.message, Over)
      else (Mkdir(d, w.clock), w.message, if d.Missing? then CreateRaw else Inspect)
    case Inspect =>
      (d, w.message, if ok && d.Directory? && w.clock - d.modified > REPAIR_GRACE then TryLoad else Insert)
    case TryLoad => (d, w.message, if ok && Loads(d) then Insert else Remove)
    case Remove => if ok then (Missing, w.message, Remake) else (d, w.message, Over)
    case Remake =>
      if !ok then (d, w.message, Over)
      else (Mkdir(d, w.clock), w.message, if d.Missing? then CreateRaw else Insert)
    case CreateRaw =>
      if !ok || d.Missing? || d.raw.Some? then (d, w.message, CleanUp)
      else (d.(modified := w.clock, raw := Some(File(e, false))), w.message, FillRaw)
    case FillRaw =>
      if !ok || d.Missing? then (d, w.message, if ok then CreateMetadata else CleanUp)
      else (d.(raw := Filled(d.raw, e)), w.message, CreateMetadata)
    case CreateMetadata =>
      if !ok || d.Missing? || d.metadata.Some? then (d, w.message, CleanUp)
      else (d.(modified := w.clock, metadata := Some(File(e, false))), w.message, FillMetadata)
    case FillMetadata =>
      if !ok || d.Missing? then (d, w.message, if ok then Insert else CleanUp)
      else (d.(metadata := Filled(d.metadata, e)), w.message, Insert)
    case CleanUp => (if ok then Missing else d, w.message, Over)
    case Insert => (d, w.message || ok, Over)
    case Over => (d, w.message, Over)
  }

  predicate Saving(w: World, e: nat) {
    e in w.writers && !w.writers[e].pc.Over?
  }

  /** A claim begins a save, unless the message is there already. */
  function Apply(w: World, a: Action): World {
    match a
    case Begin(e) =>
      if e in w.writers then w else
        w.(writers := w.writers[e := Writer(if w.message then Over else Make, w.clock)], lastClaim := Some(w.clock))
    case Step(e, ok) =>
      if !Saving(w, e) then w else
        var (dir, message, pc) := Next(w, e, w.writers[e].pc, ok);
        w.(dir := dir, message := message, writers := w.writers[e := w.writers[e].(pc := pc)])
    case Crash(e) =>
      if e in w.writers then w.(writers := w.writers[e := w.writers[e].(pc := Over)]) else w
    case Tick(elapsed) => w.(clock := w.clock + elapsed)
  }

  function Exec(w: World, acts: seq<Action>): World
    decreases |acts|
  {
    if acts == [] then w else Exec(Apply(w, acts[0]), acts[1..])
  }

  function Fresh(now: Time): World {
    World(now, Missing, false, map[], None)
  }

  /** The message row has its complete files. */
  predicate Backed(w: World) {
    w.message ==> Complete(w.dir)
  }

  // The step that loses a message its file.

  /** A row inserted over an incomplete directory, or a directory removed under
      a row. */
  predicate Loses(w: World, a: Action) {
    && a.Step? && a.ok && Saving(w, a.writer)
    && var pc := w.writers[a.writer].pc;
       (pc.Insert? && !Complete(w.dir)) || ((pc.Remove? || pc.CleanUp?) && w.message)
  }

  lemma LostWhen(w: World, a: Action)
    requires Backed(w)
    ensures Backed(Apply(w, a)) <==> !Loses(w, a)
  {
  }

  // Saves that end within the lease never do that.

  const SAVE_LIMIT: Time := RECIPIENT_CLAIM_LEASE - REPAIR_GRACE

  /** Claims are more than a lease apart, every writer has saved and inserted the
      row, failed or died within `limit` of its claim, and the age of an existing directory can be read. */
  ghost predicate Timely(limit: Time, w: World, a: Action) {
    && (a.Begin? && w.lastClaim.Some? ==> w.clock > w.lastClaim.value + RECIPIENT_CLAIM_LEASE)
    && (a.Tick? ==> forall e :: Saving(w, e) ==> w.clock + a.elapsed <= w.writers[e].since + limit)
    && (a.Step? && Saving(w, a.writer) && w.writers[a.writer].pc.Inspect? ==> a.ok)
  }

  ghost predicate TimelyRun(limit: Time, w: World, acts: seq<Action>)
    decreases |acts|
  {
    acts != [] ==> Timely(limit, w, acts[0]) && TimelyRun(limit, Apply(w, acts[0]), acts[1..])
  }

  /** Metadata is written after the raw file. */
  predicate RawFirst(d: Directory) {
    d.Directory? && d.metadata.Some? ==> Whole(d.raw)
  }

  predicate Old(w: World) {
    w.dir.Directory? && w.clock - w.dir.modified > REPAIR_GRACE
  }

  /** What a writer finds at each of its steps when it is alone. */
  predicate Finds(w: World, e: nat, pc: Pc) {
    match pc
    case Make => w.dir.Missing? || Complete(w.dir) || Old(w)
    case Inspect => Complete(w.dir) || Old(w)
    case Remake => w.dir.Missing?
    case CreateRaw => w.dir.Directory? && w.dir.raw.None? && w.dir.metadata.None?
    case FillRaw => w.dir.Directory? && w.dir.raw == Some(File(e, false)) && w.dir.metadata.None?
    case CreateMetadata => w.dir.Directory? && Whole(w.dir.raw) && w.dir.metadata.None?
    case FillMetadata => w.dir.Directory? && Whole(w.dir.raw) && w.dir.metadata == Some(File(e, false))
    case Insert => Complete(w.dir)
    case _ => true
  }

  ghost predicate Alone(w: World) {
    && (forall e :: Saving(w, e) ==>
          && !w.message && w.lastClaim == Some(w.writers[e].since)
          && w.clock <= w.writers[e].since + SAVE_LIMIT
          && Finds(w, e, w.writers[e].pc))
    && (forall e, f :: Saving(w, e) && Saving(w, f) ==> e == f)
    && RawFirst(w.dir) && Backed(w)
    && (w.dir.Directory? ==> LastTouched(w))
  }

  predicate LastTouched(w: World)
    requires w.dir.Directory?
  {
    w.dir.modified <= w.clock && w.lastClaim.Some? && w.dir.modified <= w.lastClaim.value + SAVE_LIMIT
  }

  lemma BeginsAlone(w: World, e: nat)
    requires Alone(w) && Timely(SAVE_LIMIT, w, Begin(e))
    ensures Alone(Apply(w, Begin(e)))
  {
  }

  lemma StepsAlone(w: World, e: nat, ok: bool)
    requires Alone(w) && Timely(SAVE_LIMIT, w, Step(e, ok))
    ensures Alone(Apply(w, Step(e, ok)))
  {
    assert forall f :: Saving(Apply(w, Step(e, ok)), f) ==> Saving(w, f);
  }

  lemma StaysAlone(w: World, a: Action)
    requires Alone(w) && Timely(SAVE_LIMIT, w, a)
    ensures Alone(Apply(w, a))
  {
    match a
    case Begin(e) => BeginsAlone(w, e);
    case Step(e, ok) => StepsAlone(w, e, ok);
    case _ => assert forall f :: Saving(Apply(w, a), f) ==> Saving(w, f);
  }

  lemma {:induction false} RunsAlone(w: World, acts: seq<Action>)
    requires Alone(w) && TimelyRun(SAVE_LIMIT, w, acts)
    ensures Alone(Exec(w, acts))
    decreases |acts|
  {
    if acts != [] {
      StaysAlone(w, acts[0]);
      RunsAlone(Apply(w, acts[0]), acts[1..]);
    }
  }

  lemma {:induction false} ShorterIsTimely(limit: Time, w: World, acts: seq<Action>)
    requires TimelyRun(limit, w, acts) && limit <= SAVE_LIMIT
    ensures TimelyRun(SAVE_LIMIT, w, acts)
    decreases |acts|
  {
    if acts != [] { ShorterIsTimely(limit, Apply(w, acts[0]), acts[1..]); }
  }

  // And the limit cannot be raised by a microsecond.

  ghost predicate Fails(limit: Time, w: World) {
    exists acts :: TimelyRun(limit, w, acts) && !Backed(Exec(w, acts))
  }

  lemma Before(limit: Time, w: World, a: Action, w': World)
    requires Timely(limit, w, a) && Apply(w, a) == w' && Fails(limit, w')
    ensures Fails(limit, w)
  {
    var acts :| TimelyRun(limit, w', acts) && !Backed(Exec(w', acts));
    assert ([a] + acts)[1..] == acts;
    assert TimelyRun(limit, w, [a] + acts) && Exec(w, [a] + acts) == Exec(w', acts);
  }

  const TOO_LATE: Time := SAVE_LIMIT + 1
  const NEXT_CLAIM: Time := RECIPIENT_CLAIM_LEASE + 1
  const TORN := Directory(TOO_LATE, Some(File(1, false)), None)

  function First(clock: Time, dir: Directory, one: Pc): World {
    World(clock, dir, false, map[1 := Writer(one, 0)], Some(0))
  }

  function Second(message: bool, two: Pc): World {
    World(NEXT_CLAIM, TORN, message, map[1 := Writer(Over, 0), 2 := Writer(two, NEXT_CLAIM)], Some(NEXT_CLAIM))
  }

  /** The next claim finds a torn directory that is not yet old enough to repair
      and takes it for a complete one. */
  lemma SecondTrusts(limit: Time)
    requires limit >= TOO_LATE
    ensures Fails(limit, Second(false, Make))
  {
    assert TimelyRun(limit, Second(true, Over), []) && !Backed(Exec(Second(true, Over), []));
    Before(limit, Second(false, Insert), Step(2, true), Second(true, Over));
    Before(limit, Second(false, Inspect), Step(2, true), Second(false, Insert));
    Before(limit, Second(false, Make), Step(2, true), Second(false, Inspect));
  }

  /** A process dies just after it created the raw file, too late by one
      microsecond. */
  lemma FirstDiesLate(limit: Time)
    requires limit >= TOO_LATE && Fails(limit, Second(false, Make))
    ensures Fails(limit, Fresh(0))
  {
    var empty := Directory(0, None, None);
    hide Fails;
    Before(limit, First(NEXT_CLAIM, TORN, Over), Begin(2), Second(false, Make));
    Before(limit, First(TOO_LATE, TORN, Over), Tick(REPAIR_GRACE), First(NEXT_CLAIM, TORN, Over));
    Before(limit, First(TOO_LATE, TORN, FillRaw), Crash(1), First(TOO_LATE, TORN, Over));
    Before(limit, First(TOO_LATE, empty, CreateRaw), Step(1, true), First(TOO_LATE, TORN, FillRaw));
    Before(limit, First(0, empty, CreateRaw), Tick(TOO_LATE), First(TOO_LATE, empty, CreateRaw));
    Before(limit, First(0, Missing, Make), Step(1, true), First(0, empty, CreateRaw));
    Before(limit, Fresh(0), Begin(1), First(0, Missing, Make));
  }

  ghost predicate AlwaysBacked(limit: Time) {
    forall now: Time, acts: seq<Action> :: TimelyRun(limit, Fresh(now), acts) ==> Backed(Exec(Fresh(now), acts))
  }

  /** The promise of Save, exactly: whatever fails or crashes between its steps, a
      message row always has its complete files if and only if saves are bounded
      by 295 seconds, the claim lease less the grace of the repair. */
  lemma SavesAreBackedWhen(limit: Time)
    ensures AlwaysBacked(limit) <==> limit <= 295_000_000
  {
    if limit <= SAVE_LIMIT {
      forall now: Time, acts: seq<Action> | TimelyRun(limit, Fresh(now), acts) ensures Backed(Exec(Fresh(now), acts)) {
        ShorterIsTimely(limit, Fresh(now), acts);
        RunsAlone(Fresh(now), acts);
      }
    } else {
      SecondTrusts(limit);
      FirstDiesLate(limit);
      assert Fails(limit, Fresh(0)) ==> !AlwaysBacked(limit);
    }
  }

  // One save with nobody else around.

  function Steps(e: nat, oks: seq<bool>): (acts: seq<Action>)
    ensures |acts| == |oks| && forall i :: 0 <= i < |oks| ==> acts[i] == Step(e, oks[i])
  {
    seq(|oks|, i requires 0 <= i < |oks| => Step(e, oks[i]))
  }

  lemma NextStep(w: World, e: nat, oks: seq<bool>)
    requires oks != []
    ensures Exec(w, Steps(e, oks)) == Exec(Apply(w, Step(e, oks[0])), Steps(e, oks[1..]))
  {
    assert Steps(e, oks)[1..] == Steps(e, oks[1..]);
  }

  lemma {:induction false} OverStays(w: World, e: nat, oks: seq<bool>)
    requires e in w.writers && w.writers[e].pc.Over?
    ensures Exec(w, Steps(e, oks)) == w
    decreases |oks|
  {
    if oks != [] {
      NextStep(w, e, oks);
      OverStays(w, e, oks[1..]);
    }
  }

  /** How many statements succeed before the first that fails. */
  function Until(oks: seq<bool>): (n: nat)
    ensures n <= |oks|
    decreases |oks|
  {
    if oks == [] || !oks[0] then 0 else 1 + Until(oks[1..])
  }

  /** What a save leaves behind that has `n` good statements before the first bad
      one, in that order: the message over its files; its files for a later try;
      or nothing, unless the removal failed as well. */
  predicate Leaves(w: World, oks: seq<bool>) {
    var n := Until(oks);
    if n == |oks| then w.message && Complete(w.dir)
    else if n == |oks| - 1 then !w.message && Complete(w.dir)
    else !w.message && (oks[n + 1] ==> w.dir.Missing?)
  }

  lemma Abandoned(w: World, e: nat, oks: seq<bool>)
    requires oks != [] && Saving(w, e) && w.writers[e].pc.CleanUp? && !w.message
    ensures var done := Exec(w, Steps(e, oks)); !done.message && (oks[0] ==> done.dir.Missing?)
  {
    NextStep(w, e, oks);
    OverStays(Apply(w, Step(e, oks[0])), e, oks[1..]);
  }

  /** How many statements a lone writer still has to go. */
  function ToGo(pc: Pc): nat {
    match pc
    case CreateRaw => 5
    case FillRaw => 4
    case CreateMetadata => 3
    case FillMetadata => 2
    case Insert => 1
    case _ => 0
  }

  lemma {:induction false} WritesAlone(w: World, e: nat, oks: seq<bool>)
    requires Saving(w, e) && !w.message && Finds(w, e, w.writers[e].pc)
    requires |oks| == ToGo(w.writers[e].pc) >= 1
    ensures Leaves(Exec(w, Steps(e, oks)), oks)
    decreases |oks|
  {
    NextStep(w, e, oks);
    var w1 := Apply(w, Step(e, oks[0]));
    if w.writers[e].pc.Insert? {
      OverStays(w1, e, oks[1..]);
    } else if oks[0] {
      WritesAlone(w1, e, oks[1..]);
    } else {
      Abandoned(w1, e, oks[1..]);
    }
  }

  /** A save with nobody else around takes six statements. It ends with the message
      and its files if all succeed; if only the insert fails the files stay for the
      next try; and a failure before leaves nothing, when removal works. */
  lemma LoneSave(now: Time, e: nat, oks: seq<bool>)
    requires |oks| == 6
    ensures Leaves(Exec(Fresh(now), [Begin(e)] + Steps(e, oks)), oks)
  {
    var w := Apply(Fresh(now), Begin(e));
    assert ([Begin(e)] + Steps(e, oks))[1..] == Steps(e, oks);
    NextStep(w, e, oks);
    var w1 := Apply(w, Step(e, oks[0]));
    if oks[0] { WritesAlone(w1, e, oks[1..]); } else { OverStays(w1, e, oks[1..]); }
  }

  /** The next try takes complete files for what they are, and only inserts. */
  lemma RetryInserts(w: World, f: nat, oks: seq<bool>)
    requires f !in w.writers && !w.message && Complete(w.dir)
    requires |oks| == 4 && forall i :: 0 <= i < 4 ==> oks[i]
    ensures var done := Exec(w, [Begin(f)] + Steps(f, oks)); done.message && done.dir == w.dir
  {
    assert ([Begin(f)] + Steps(f, oks))[1..] == Steps(f, oks);
    var w1 := Apply(w, Begin(f));
    NextStep(w1, f, oks);
    var w2 := Apply(w1, Step(f, true));
    NextStep(w2, f, oks[1..]);
    var w3 := Apply(w2, Step(f, true));
    NextStep(w3, f, oks[1..][1..]);
    var w4 := Apply(w3, Step(f, true));
    if w3.writers[f].pc.Insert? {
      OverStays(w4, f, oks[1..][1..][1..]);
    } else {
      NextStep(w4, f, oks[1..][1..][1..]);
      OverStays(Apply(w4, Step(f, true)), f, oks[1..][1..][1..][1..]);
    }
  }
}

/** Crash atomicity of a memory scope: notes, a transaction directory with new files, backups and a
    manifest, and recovery that may itself crash. Hashes are injective, so a hash stands for its payload. */
module MemoryTransactions {
  import opened Wrappers

  type Name = nat
  type Payload = string
  type Notes = map<Name, Payload>

  /** One manifest line; no new payload means the note is deleted. */
  datatype Change = Change(name: Name, before: Option<Payload>, after: Option<Payload>)

  datatype Manifest = Manifest(committed: bool, changes: seq<Change>)

  datatype Transaction = Transaction(newFiles: Notes, backups: Notes, manifest: Option<Manifest>)

  /** What survives a crash: notes, whether `.transactions` exists, the transaction in it, MEMORY.md. */
  datatype Disk = Disk(notes: Notes, root: bool, transaction: Option<Transaction>, index: string)

  /** How a listing is written, and whether it fits its budget. */
  datatype Config = Config(render: Notes -> string, fits: string -> bool) {
    function Listing(notes: Notes): string {
      if fits(render(notes)) then render(notes) else ""
    }
  }

  /** Why a transaction directory is being removed. */
  datatype Reason = Recovering | Committing | GivingUp

  /** Where the process is: committing, recovering, between calls, or gone. */
  datatype Phase =
    | Down
    | Opening
    | Preparing(k: nat)
    | Renaming(j: nat, movedOut: bool)
    | Marking
    | Cleaning(reason: Reason)
    | RemovingRoot(reason: Reason)
    | RollingBack(undone: nat)
    | Reindexing
    | Recovered
    | Loaded
    | RecoveryFailed
    | Committed

  /** `before` and `after` are the notes the current transaction is about; `decided` says whether its
      committed manifest was written; `found` is the disk the last recovery began with. */
  datatype State = State(
    disk: Disk, phase: Phase, changes: seq<Change>, before: Notes, after: Notes, decided: bool, found: Disk)

  datatype File = NewFile(name: Name) | BackupFile(name: Name) | ManifestFile

  datatype Action =
    | Crash
    | Begin(final: Notes, changes: seq<Change>)
    | Open
    | WriteNew
    | TornNew(payload: Payload)
    | WriteManifest
    | GiveUp
    | MoveOut
    | MoveIn
    | WriteIndex
    | MarkCommitted
    | RemoveFile(file: File)
    | RemoveDirectory
    | RemoveRoot(gone: bool)
    | StartRecovery
    | Undo
    | FinishUndo
    | Reindex
    | Load(written: bool)
    | ReadAhead

  function AfterCleaning(reason: Reason): Phase {
    match reason
    case Recovering => Reindexing
    case Committing => Committed
    case GivingUp => Down
  }

  predicate BetweenCalls(p: Phase) {
    p.Down? || p.Recovered? || p.Loaded? || p.RecoveryFailed? || p.Committed?
  }

  function Get(m: Notes, name: Name): Option<Payload> {
    if name in m then Some(m[name]) else None
  }

  function Put(m: Notes, name: Name, p: Option<Payload>): Notes {
    if p.Some? then m[name := p.value] else m - {name}
  }

  /** The manifest lists exactly the notes that differ, each once. */
  ghost predicate Describes(changes: seq<Change>, before: Notes, after: Notes) {
    && (forall i, j :: 0 <= i < j < |changes| ==> changes[i].name != changes[j].name)
    && (forall c :: c in changes ==> c.before == Get(before, c.name) && c.after == Get(after, c.name))
    && (forall name :: Get(before, name) != Get(after, name) ==> exists c :: c in changes && c.name == name)
  }

  /** The value the last decided transaction left. */
  function Value(s: State): Notes {
    if s.decided then s.after else s.before
  }

  function SetTransaction(s: State, t: Transaction): State {
    s.(disk := s.disk.(transaction := Some(t)))
  }

  function Without(t: Transaction, file: File): Transaction {
    match file
    case NewFile(name) => t.(newFiles := t.newFiles - {name})
    case BackupFile(name) => t.(backups := t.backups - {name})
    case ManifestFile => t.(manifest := None)
  }

  predicate Empty(t: Transaction) {
    t.newFiles == map[] && t.backups == map[] && t.manifest == None
  }

  /** One line of a rollback on the disk, if the disk is as the line expects. */
  function UndoChange(d: Disk, t: Transaction, c: Change): Option<Disk> {
    if c.before.None? then
      if c.name !in d.notes then Some(d)
      else if Some(d.notes[c.name]) != c.after then None
      else Some(d.(notes := d.notes - {c.name}))
    else if c.name in t.backups then
      if t.backups[c.name] != c.before.value then None
      else Some(d.(notes := d.notes[c.name := t.backups[c.name]],
                   transaction := Some(t.(backups := t.backups - {c.name}))))
    else if Get(d.notes, c.name) != c.before then None
    else Some(d)
  }

  /** One atomic file operation, or nothing if the phase does not allow it. */
  ghost function Step(s: State, a: Action, cfg: Config): State {
    var d := s.disk;
    if a.Crash? then s.(phase := Down)
    else if a.Begin? then
      if s.phase.Loaded? && d.transaction.None? && Describes(a.changes, d.notes, a.final) then
        State(d.(root := true), Opening, a.changes, d.notes, a.final, false, s.found)
      else s
    else if a.Open? then
      if s.phase.Opening? && d.transaction.None? then
        SetTransaction(s, Transaction(map[], map[], None)).(phase := Preparing(0))
      else s
    else if a.StartRecovery? then
      s.(found := d, phase :=
        if !d.root then Recovered
        else if d.transaction.None? then RemovingRoot(Recovering)
        else match d.transaction.value.manifest
             case None => RecoveryFailed
             case Some(m) => if m.committed then Cleaning(Recovering) else RollingBack(0))
    else if a.RemoveRoot? then
      if s.phase.RemovingRoot? then
        s.(disk := d.(root := d.root && !a.gone), phase := AfterCleaning(s.phase.reason))
      else s
    else if a.Reindex? then
      if s.phase.Reindexing? then s.(disk := d.(index := cfg.Listing(d.notes)), phase := Recovered) else s
    else if a.Load? then
      if s.phase.Recovered? then
        s.(disk := if a.written then d.(index := cfg.Listing(d.notes)) else d, phase := Loaded)
      else s
    else if a.ReadAhead? then
      // `apply` looks at its scopes before it recovers
      if BetweenCalls(s.phase) then s.(disk := d.(index := cfg.Listing(d.notes)), phase := Down) else s
    else if a.GiveUp? then
      if s.phase.Preparing? then s.(phase := Cleaning(GivingUp))
      else if s.phase.Opening? then s.(phase := RemovingRoot(GivingUp))
      else s
    else if d.transaction.None? then s
    else
      var t := d.transaction.value;
      match a
      case WriteNew =>
        if s.phase.Preparing? && s.phase.k < |s.changes| then
          var c := s.changes[s.phase.k];
          SetTransaction(s, t.(newFiles := Put(t.newFiles, c.name, c.after))).(phase := Preparing(s.phase.k + 1))
        else s
      case TornNew(payload) =>
        if s.phase.Preparing? && s.phase.k < |s.changes| then
          SetTransaction(s, t.(newFiles := t.newFiles[s.changes[s.phase.k].name := payload])).(phase := Down)
        else s
      case WriteManifest =>
        if s.phase.Preparing? && s.phase.k == |s.changes| then
          SetTransaction(s, t.(manifest := Some(Manifest(false, s.changes)))).(phase := Renaming(0, false))
        else s
      case MoveOut =>
        if s.phase.Renaming? && !s.phase.movedOut && s.phase.j < |s.changes| then
          var c := s.changes[s.phase.j];
          var moved := s.(phase := Renaming(s.phase.j, true));
          if c.before.Some? && c.name in d.notes then
            moved.(disk := d.(notes := d.notes - {c.name},
                              transaction := Some(t.(backups := t.backups[c.name := d.notes[c.name]]))))
          else moved
        else s
      case MoveIn =>
        if s.phase.Renaming? && s.phase.movedOut && s.phase.j < |s.changes| then
          var c := s.changes[s.phase.j];
          var next := s.(phase := Renaming(s.phase.j + 1, false));
          if c.after.None? then next
          else if c.name !in t.newFiles then s.(phase := Down)
          else
            next.(disk := d.(notes := d.notes[c.name := t.newFiles[c.name]],
                             transaction := Some(t.(newFiles := t.newFiles - {c.name}))))
        else s
      case WriteIndex =>
        if s.phase.Renaming? && s.phase.j == |s.changes| then
          s.(disk := d.(index := cfg.render(s.after)), phase := Marking)
        else s
      case MarkCommitted =>
        if s.phase.Marking? then
          SetTransaction(s, t.(manifest := Some(Manifest(true, s.changes)))).(phase := Cleaning(Committing), decided := true)
        else s
      case RemoveFile(file) =>
        if s.phase.Cleaning? then SetTransaction(s, Without(t, file)) else s
      case RemoveDirectory =>
        if s.phase.Cleaning? && Empty(t) then
          s.(disk := d.(transaction := None), phase := RemovingRoot(s.phase.reason))
        else s
      case Undo =>
        if s.phase.RollingBack? && t.manifest.Some? && s.phase.undone < |t.manifest.value.changes| then
          var r := UndoChange(d, t, t.manifest.value.changes[s.phase.undone]);
          if r.None? then s.(phase := RecoveryFailed)
          else s.(disk := r.value, phase := RollingBack(s.phase.undone + 1))
        else s
      case FinishUndo =>
        if s.phase.RollingBack? && t.manifest.Some? && s.phase.undone == |t.manifest.value.changes| then
          s.(phase := Cleaning(Recovering))
        else s
      case _ => s
  }

  ghost function Run(s: State, actions: seq<Action>, cfg: Config): State {
    if actions == [] then s
    else Step(Run(s, actions[..|actions| - 1], cfg), actions[|actions| - 1], cfg)
  }

  /** A scope as it first appears: any notes, nothing under way. */
  function Initial(notes: Notes, index: string): State {
    var disk := Disk(notes, false, None, index);
    State(disk, Down, [], notes, notes, false, disk)
  }

  // ---- invariant ----

  /** Where one changed note may stand while a prepared manifest is on disk: a rollback can restore it. */
  predicate Restorable(d: Disk, t: Transaction, c: Change) {
    if c.before.None? then Get(d.notes, c.name) == None || Get(d.notes, c.name) == c.after
    else if c.name in t.backups then Some(t.backups[c.name]) == c.before
    else Get(d.notes, c.name) == c.before
  }

  ghost predicate UnchangedElsewhere(s: State) {
    forall name :: (forall c :: c in s.changes ==> c.name != name) ==> Get(s.disk.notes, name) == Get(s.before, name)
  }

  /** What holds of the disk whenever the process may die. */
  ghost predicate DiskInv(s: State) {
    && Describes(s.changes, s.before, s.after)
    && (s.disk.transaction.Some? ==> s.disk.root)
    && (match s.disk.transaction
        case None => s.disk.notes == Value(s)
        case Some(t) =>
          match t.manifest
          case None => s.disk.notes == Value(s)
          case Some(m) =>
            && m.changes == s.changes && m.committed == s.decided
            && (m.committed ==> s.disk.notes == s.after)
            && (!m.committed ==> UnchangedElsewhere(s) && forall c :: c in s.changes ==> Restorable(s.disk, t, c)))
  }

  /** What the running process additionally knows. */
  ghost predicate PhaseInv(s: State, cfg: Config) {
    match s.phase
    case Opening => s.disk.transaction.None? && s.disk.root && !s.decided
    case Preparing(k) =>
      && s.disk.transaction.Some? && s.disk.transaction.value.manifest.None? && !s.decided && k <= |s.changes|
      && s.disk.transaction.value.backups == map[]
      && (forall i :: 0 <= i < k ==> Get(s.disk.transaction.value.newFiles, s.changes[i].name) == s.changes[i].after)
    case Renaming(j, movedOut) =>
      && s.disk.transaction.Some? && s.disk.transaction.value.manifest == Some(Manifest(false, s.changes)) && !s.decided
      && j <= |s.changes| && (movedOut ==> j < |s.changes|)
      && (forall i :: 0 <= i < j ==> Get(s.disk.notes, s.changes[i].name) == s.changes[i].after)
      && (movedOut ==> Get(s.disk.notes, s.changes[j].name) == None)
      && (forall i :: j <= i < |s.changes| ==>
            Get(s.disk.transaction.value.newFiles, s.changes[i].name) == s.changes[i].after
            && ((i > j || !movedOut) ==>
                  s.changes[i].name !in s.disk.transaction.value.backups
                  && Get(s.disk.notes, s.changes[i].name) == s.changes[i].before))
    case Marking =>
      && s.disk.transaction.Some? && s.disk.transaction.value.manifest == Some(Manifest(false, s.changes)) && !s.decided
      && s.disk.notes == s.after && s.disk.index == cfg.render(s.after)
    case Cleaning(reason) =>
      && s.disk.transaction.Some? && s.disk.notes == Value(s)
      && (reason.Committing? ==> s.decided && s.disk.index == cfg.render(s.after))
      && (reason.Recovering? ==> s.found.root)
    case RemovingRoot(reason) =>
      && s.disk.transaction.None? && s.disk.root
      && (reason.Committing? ==> s.decided && s.disk.index == cfg.render(s.after))
      && (reason.Recovering? ==> s.found.root)
    case RollingBack(undone) =>
      && s.disk.transaction.Some? && s.disk.transaction.value.manifest == Some(Manifest(false, s.changes))
      && undone <= |s.changes| && s.found.root
      && (forall i :: 0 <= i < undone ==>
            Get(s.disk.notes, s.changes[i].name) == s.changes[i].before)
    case Reindexing => s.disk.transaction.None? && s.found.root
    case Recovered =>
      s.disk.transaction.None? && if s.found.root then s.disk.index == cfg.Listing(s.disk.notes) else s.disk == s.found
    case Loaded => s.disk.transaction.None?
    case Committed => s.disk.transaction.None? && s.decided && s.disk.index == cfg.render(s.after)
    case RecoveryFailed => s.disk.transaction.Some? && s.disk.transaction.value.manifest.None?
    case Down => true
  }

  ghost predicate Inv(s: State, cfg: Config) {
    DiskInv(s) && PhaseInv(s, cfg)
  }

  lemma {:induction false} SameNotes(x: Notes, y: Notes)
    requires forall name :: Get(x, name) == Get(y, name)
    ensures x == y
  {
    assert forall name :: name in x <==> Get(x, name).Some?;
    assert forall name :: name in y <==> Get(y, name).Some?;
    assert x.Keys == y.Keys;
    assert forall name :: name in x ==> Get(x, name).value == x[name] && Get(y, name).value == y[name];
  }

  /** Notes that agree with a side of the manifest on every line, and are untouched elsewhere, are that side. */
  lemma {:induction false} AllLinesGive(s: State, after: bool)
    requires Describes(s.changes, s.before, s.after) && UnchangedElsewhere(s)
    requires forall i :: 0 <= i < |s.changes| ==>
      Get(s.disk.notes, s.changes[i].name) == if after then s.changes[i].after else s.changes[i].before
    ensures s.disk.notes == if after then s.after else s.before
  {
    var target := if after then s.after else s.before;
    forall name ensures Get(s.disk.notes, name) == Get(target, name) {
      if c :| c in s.changes && c.name == name {
        var i :| 0 <= i < |s.changes| && s.changes[i] == c;
      } else {
        assert Get(s.disk.notes, name) == Get(s.before, name) == Get(s.after, name);
      }
    }
    SameNotes(s.disk.notes, target);
  }

  lemma {:induction false} BeginKeeps(s: State, a: Action, cfg: Config)
    requires Inv(s, cfg) && (a.Begin? || a.Open?)
    ensures Inv(Step(s, a, cfg), cfg)
  {
  }

  lemma {:induction false} DownKeeps(s: State, a: Action, cfg: Config)
    requires Inv(s, cfg) && (a.Crash? || a.StartRecovery? || a.GiveUp?)
    ensures Inv(Step(s, a, cfg), cfg)
  {
  }

  lemma {:induction false} ReadingKeeps(s: State, a: Action, cfg: Config)
    requires Inv(s, cfg) && (a.Reindex? || a.Load? || a.ReadAhead? || a.RemoveRoot?)
    ensures Inv(Step(s, a, cfg), cfg)
  {
    hide Describes;
  }

  lemma {:induction false} WriteNewKeeps(s: State, a: Action, cfg: Config)
    requires Inv(s, cfg) && (a.WriteNew? || a.TornNew?)
    ensures Inv(Step(s, a, cfg), cfg)
  {
  }

  lemma {:induction false} WriteManifestKeeps(s: State, cfg: Config)
    requires Inv(s, cfg)
    ensures Inv(Step(s, WriteManifest, cfg), cfg)
  {
    if s.disk.transaction.Some? && s.phase.Preparing? && s.phase.k == |s.changes| {
      assert s.disk.notes == s.before;
      assert forall i :: 0 <= i < |s.changes| ==> s.changes[i] in s.changes;
    }
  }

  /** Moving one listed note leaves every other line, and every unlisted note, as it was. */
  lemma {:induction false} OneLineMoves(s: State, r: State, c: Change)
    requires DiskInv(s) && s.disk.transaction.Some? && s.disk.transaction.value.manifest == Some(Manifest(false, s.changes))
    requires c in s.changes && r.changes == s.changes && r.before == s.before && r.after == s.after && !r.decided
    requires r.disk.root == s.disk.root
    requires r.disk.transaction.Some? && r.disk.transaction.value.manifest == Some(Manifest(false, s.changes))
    requires forall name :: name != c.name ==>
      Get(r.disk.notes, name) == Get(s.disk.notes, name)
      && Get(r.disk.transaction.value.backups, name) == Get(s.disk.transaction.value.backups, name)
    requires Restorable(r.disk, r.disk.transaction.value, c)
    ensures DiskInv(r)
  {
    var t, u := s.disk.transaction.value, r.disk.transaction.value;
    forall x | x in r.changes ensures Restorable(r.disk, u, x) {
      if x != c {
        OtherLine(s.changes, x, c);
        assert Restorable(s.disk, t, x);
        assert Get(u.backups, x.name) == Get(t.backups, x.name);
      }
    }
  }

  lemma {:induction false} OtherLine(changes: seq<Change>, x: Change, c: Change)
    requires forall i, j :: 0 <= i < j < |changes| ==> changes[i].name != changes[j].name
    requires x in changes && c in changes && x != c
    ensures x.name != c.name
  {
    var i :| 0 <= i < |changes| && changes[i] == x;
    var j :| 0 <= j < |changes| && changes[j] == c;
  }

  lemma {:induction false} MoveOutKeeps(s: State, cfg: Config)
    requires Inv(s, cfg)
    ensures Inv(Step(s, MoveOut, cfg), cfg)
  {
    if s.disk.transaction.Some? && s.phase.Renaming? && !s.phase.movedOut && s.phase.j < |s.changes| {
      var c := s.changes[s.phase.j];
      assert c in s.changes;
      assert Get(s.disk.notes, c.name) == c.before;
      var r := Step(s, MoveOut, cfg);
      assert DiskInv(r) by {
        assert Restorable(s.disk, s.disk.transaction.value, c);
        OneLineMoves(s, r, c);
      }
      hide DiskInv;
    }
  }

  lemma {:induction false} MoveInKeepsDisk(s: State, cfg: Config)
    requires Inv(s, cfg) && s.disk.transaction.Some? && s.phase.Renaming? && s.phase.movedOut && s.phase.j < |s.changes|
    ensures DiskInv(Step(s, MoveIn, cfg))
  {
    var c := s.changes[s.phase.j];
    assert c in s.changes;
    assert Restorable(s.disk, s.disk.transaction.value, c);
    OneLineMoves(s, Step(s, MoveIn, cfg), c);
  }

  lemma {:induction false} MoveInKeepsPhase(s: State, cfg: Config)
    requires PhaseInv(s, cfg) && s.disk.transaction.Some? && s.phase.Renaming? && s.phase.movedOut && s.phase.j < |s.changes|
    requires forall i :: 0 <= i < |s.changes| && i != s.phase.j ==> s.changes[i].name != s.changes[s.phase.j].name
    ensures PhaseInv(Step(s, MoveIn, cfg), cfg)
  {
    hide Describes;
  }

  lemma {:induction false} MoveInKeeps(s: State, cfg: Config)
    requires Inv(s, cfg)
    ensures Inv(Step(s, MoveIn, cfg), cfg)
  {
    if s.disk.transaction.Some? && s.phase.Renaming? && s.phase.movedOut && s.phase.j < |s.changes| {
      MoveInKeepsDisk(s, cfg);
      LaterLines(s.changes, s.phase.j);
      MoveInKeepsPhase(s, cfg);
      hide DiskInv, PhaseInv, Step;
    }
  }

  lemma {:induction false} IndexKeeps(s: State, a: Action, cfg: Config)
    requires Inv(s, cfg) && (a.WriteIndex? || a.MarkCommitted?)
    ensures Inv(Step(s, a, cfg), cfg)
  {
    if s.disk.transaction.Some? && s.phase.Renaming? && s.phase.j == |s.changes| {
      AllLinesGive(s, true);
    }
  }

  lemma {:induction false} RemoveKeeps(s: State, a: Action, cfg: Config)
    requires Inv(s, cfg) && (a.RemoveFile? || a.RemoveDirectory?)
    ensures Inv(Step(s, a, cfg), cfg)
  {
    if s.disk.transaction.Some? && s.phase.Cleaning? && a.RemoveFile? {
      var r := Step(s, a, cfg);
      var t, u := s.disk.transaction.value, r.disk.transaction.value;
      if u.manifest.Some? && !u.manifest.value.committed {
        forall x | x in r.changes ensures Restorable(r.disk, u, x) {
          assert Restorable(s.disk, t, x);
          assert Get(s.disk.notes, x.name) == x.before;
        }
      }
    }
  }

  /** Under the invariant no line of a rollback ever fails. */
  lemma {:induction false} UndoSucceeds(s: State, c: Change)
    requires DiskInv(s) && s.disk.transaction.Some? && s.disk.transaction.value.manifest == Some(Manifest(false, s.changes))
    requires c in s.changes
    ensures UndoChange(s.disk, s.disk.transaction.value, c).Some?
    ensures var d := UndoChange(s.disk, s.disk.transaction.value, c).value;
            && d.transaction.Some? && d.transaction.value.manifest == s.disk.transaction.value.manifest
            && Get(d.notes, c.name) == c.before && d.index == s.disk.index && d.root == s.disk.root
            && (forall name :: name != c.name ==>
                  Get(d.notes, name) == Get(s.disk.notes, name)
                  && Get(d.transaction.value.backups, name) == Get(s.disk.transaction.value.backups, name))
  {
    assert Restorable(s.disk, s.disk.transaction.value, c);
  }

  lemma {:induction false} UndoKeeps(s: State, cfg: Config)
    requires Inv(s, cfg)
    ensures Inv(Step(s, Undo, cfg), cfg)
  {
    if s.disk.transaction.Some? && s.phase.RollingBack? && s.phase.undone < |s.changes| {
      var c := s.changes[s.phase.undone];
      assert c in s.changes;
      UndoSucceeds(s, c);
      var r := Step(s, Undo, cfg);
      hide UndoChange;
      assert DiskInv(r) by { OneLineMoves(s, r, c); }
      LaterLines(s.changes, s.phase.undone);
      hide DiskInv;
    }
  }

  lemma {:induction false} LaterLines(changes: seq<Change>, k: nat)
    requires k < |changes| && forall i, j :: 0 <= i < j < |changes| ==> changes[i].name != changes[j].name
    ensures forall i :: 0 <= i < |changes| && i != k ==> changes[i].name != changes[k].name
  {
  }

  lemma {:induction false} FinishUndoKeeps(s: State, cfg: Config)
    requires Inv(s, cfg)
    ensures Inv(Step(s, FinishUndo, cfg), cfg)
  {
    if s.disk.transaction.Some? && s.phase.RollingBack? && s.phase.undone == |s.changes| {
      assert !s.decided;
      AllLinesGive(s, false);
      assert s.disk.notes == Value(s);
    }
  }

  lemma {:induction false} StepKeeps(s: State, a: Action, cfg: Config)
    requires Inv(s, cfg)
    ensures Inv(Step(s, a, cfg), cfg)
  {
    hide Inv, Step;
    match a
    case Crash => DownKeeps(s, a, cfg);
    case Begin(_, _) => BeginKeeps(s, a, cfg);
    case Open => BeginKeeps(s, a, cfg);
    case WriteNew => WriteNewKeeps(s, a, cfg);
    case TornNew(_) => WriteNewKeeps(s, a, cfg);
    case WriteManifest => WriteManifestKeeps(s, cfg);
    case MoveOut => MoveOutKeeps(s, cfg);
    case MoveIn => MoveInKeeps(s, cfg);
    case WriteIndex => IndexKeeps(s, a, cfg);
    case MarkCommitted => IndexKeeps(s, a, cfg);
    case RemoveFile(_) => RemoveKeeps(s, a, cfg);
    case RemoveDirectory => RemoveKeeps(s, a, cfg);
    case StartRecovery => DownKeeps(s, a, cfg);
    case Undo => UndoKeeps(s, cfg);
    case FinishUndo => FinishUndoKeeps(s, cfg);
    case Reindex => ReadingKeeps(s, a, cfg);
    case GiveUp => DownKeeps(s, a, cfg);
    case RemoveRoot(_) => ReadingKeeps(s, a, cfg);
    case Load(_) => ReadingKeeps(s, a, cfg);
    case ReadAhead => ReadingKeeps(s, a, cfg);
  }

  lemma {:induction false} RunKeeps(s: State, actions: seq<Action>, cfg: Config)
    requires Inv(s, cfg)
    ensures Inv(Run(s, actions, cfg), cfg)
  {
    hide Inv, Step;
    if actions != [] {
      RunKeeps(s, actions[..|actions| - 1], cfg);
      StepKeeps(Run(s, actions[..|actions| - 1], cfg), actions[|actions| - 1], cfg);
    }
  }

  lemma {:induction false} InitialInv(notes: Notes, index: string, cfg: Config)
    ensures Inv(Initial(notes, index), cfg)
  {
  }

  // ---- results ----

  /** The value of a scope changes at one point only: when the committed manifest is written. */
  lemma {:induction false} ValueChangesOnlyAtTheMark(s: State, a: Action, cfg: Config)
    requires Inv(s, cfg)
    ensures Value(Step(s, a, cfg)) ==
      if a.MarkCommitted? && s.phase.Marking? && s.disk.transaction.Some? then s.after else Value(s)
  {
    hide Describes, UnchangedElsewhere, Restorable, UndoChange, PhaseInv;
    if !a.Begin? { hide DiskInv; }
  }

  /** Crash atomicity: over every run of commits, crashes and recoveries, themselves crashing anywhere and
      as often as they like, a recovery that reports success leaves exactly the notes of the last
      transaction whose committed manifest was written, and no transaction. MEMORY.md lists them exactly if
      there was a `.transactions` directory when this recovery began, or it listed them before: without
      that directory recovery does not look at MEMORY.md. */
  lemma {:induction false} RecoveryIsAtomic(notes: Notes, index: string, actions: seq<Action>, cfg: Config)
    ensures var s := Run(Initial(notes, index), actions, cfg);
            s.phase.Recovered? ==>
              && s.disk.notes == Value(s)
              && (s.disk.notes == s.before || (s.disk.notes == s.after && s.decided))
              && s.disk.transaction == None
              && (s.disk.index == cfg.Listing(s.disk.notes) <==>
                    s.found.root || s.found.index == cfg.Listing(s.found.notes))
  {
    InitialInv(notes, index, cfg);
    RunKeeps(Initial(notes, index), actions, cfg);
    hide Run;
  }

  /** The reading that follows a recovery before anything else is done with the scope restores the listing. */
  lemma {:induction false} LoadRestoresListing(notes: Notes, index: string, actions: seq<Action>, cfg: Config)
    ensures var s := Run(Initial(notes, index), actions, cfg);
            s.phase.Recovered? ==>
              Step(s, Load(true), cfg).disk == Disk(Value(s), s.disk.root, None, cfg.Listing(Value(s)))
  {
    InitialInv(notes, index, cfg);
    RunKeeps(Initial(notes, index), actions, cfg);
    hide Run;
  }

  /** A commit of one new note that dies once MEMORY.md is written. */
  function DyingCommit(name: Name, payload: Payload): seq<Action> {
    [StartRecovery] + ([Load(true)] + ([Begin(map[name := payload], [Change(name, None, Some(payload))])] + ([Open]
    + ([WriteNew] + ([WriteManifest] + ([MoveOut] + ([MoveIn] + ([WriteIndex] + ([Crash] + [])))))))))
  }

  /** Its recovery, dying once `.transactions` is gone, and the recovery after that. */
  function DyingRecovery(): seq<Action> {
    [StartRecovery] + ([Undo] + ([FinishUndo] + ([RemoveFile(ManifestFile)] + ([RemoveDirectory]
    + ([RemoveRoot(true)] + ([Crash] + ([StartRecovery] + [])))))))
  }

  ghost function RunFrom(s: State, actions: seq<Action>, cfg: Config): State
    decreases |actions|
  {
    if actions == [] then s else RunFrom(Step(s, actions[0], cfg), actions[1..], cfg)
  }

  lemma {:induction false} RunIsRunFrom(s: State, actions: seq<Action>, cfg: Config)
    ensures Run(s, actions, cfg) == RunFrom(s, actions, cfg)
    decreases |actions|
  {
    hide Step;
    if actions != [] {
      var front, last := actions[..|actions| - 1], actions[|actions| - 1];
      RunIsRunFrom(s, front, cfg);
      assert actions == front + [last];
      RunFromSnoc(s, front, last, cfg);
    }
  }

  lemma {:induction false} RunFromSnoc(s: State, actions: seq<Action>, a: Action, cfg: Config)
    ensures RunFrom(s, actions + [a], cfg) == Step(RunFrom(s, actions, cfg), a, cfg)
    decreases |actions|
  {
    hide Step;
    if actions == [] {
      assert [] + [a] == [a] && [a][1..] == [];
    } else {
      assert (actions + [a])[1..] == actions[1..] + [a];
      RunFromSnoc(Step(s, actions[0], cfg), actions[1..], a, cfg);
    }
  }

  lemma {:induction false} FirstStep(s: State, a: Action, actions: seq<Action>, cfg: Config)
    ensures RunFrom(s, [a] + actions, cfg) == RunFrom(Step(s, a, cfg), actions, cfg)
  {
    assert ([a] + actions)[1..] == actions;
  }

  /** The states of that commit at its turning points. */
  function Opened(name: Name, payload: Payload, cfg: Config): State {
    var d := Disk(map[], false, None, cfg.Listing(map[]));
    State(d.(root := true, transaction := Some(Transaction(map[], map[], None))), Preparing(0),
          [Change(name, None, Some(payload))], map[], map[name := payload], false, d)
  }

  function Prepared(name: Name, payload: Payload, cfg: Config): State {
    var s := Opened(name, payload, cfg);
    s.(disk := s.disk.(transaction := Some(Transaction(s.after, map[], Some(Manifest(false, s.changes))))),
       phase := Renaming(0, false))
  }

  function Renamed(name: Name, payload: Payload, cfg: Config): State {
    var s := Prepared(name, payload, cfg);
    s.(disk := s.disk.(notes := s.after, transaction := Some(Transaction(map[], map[], Some(Manifest(false, s.changes))))),
       phase := Renaming(1, false))
  }

  function DiedIndexed(name: Name, payload: Payload, cfg: Config): State {
    var s := Renamed(name, payload, cfg);
    s.(disk := s.disk.(index := cfg.render(s.after)), phase := Down)
  }

  lemma {:induction false} CommitOpens(name: Name, payload: Payload, cfg: Config)
    ensures var s := Step(Step(Initial(map[], cfg.Listing(map[])), StartRecovery, cfg), Load(true), cfg);
            Step(Step(s, Begin(map[name := payload], [Change(name, None, Some(payload))]), cfg), Open, cfg)
            == Opened(name, payload, cfg)
  {
    var c := Change(name, None, Some(payload));
    assert Describes([c], map[], map[name := payload]) by { assert c in [c]; }
  }

  lemma {:induction false} CommitPrepares(name: Name, payload: Payload, cfg: Config)
    ensures Step(Step(Opened(name, payload, cfg), WriteNew, cfg), WriteManifest, cfg) == Prepared(name, payload, cfg)
  {
    var s := Opened(name, payload, cfg);
    WriteNewStep(s, cfg);
    var t := Step(s, WriteNew, cfg);
    ManifestSteps(t, cfg);
    hide Step;
  }

  lemma {:induction false} CommitRenames(name: Name, payload: Payload, cfg: Config)
    ensures Step(Step(Prepared(name, payload, cfg), MoveOut, cfg), MoveIn, cfg) == Renamed(name, payload, cfg)
  {
    var s := Prepared(name, payload, cfg);
    assert Step(s, MoveOut, cfg) == s.(phase := Renaming(0, true));
    assert s.after - {name} == map[] && map[][name := payload] == s.after;
  }

  lemma {:induction false} CommitIndexes(name: Name, payload: Payload, cfg: Config)
    ensures Step(Step(Renamed(name, payload, cfg), WriteIndex, cfg), Crash, cfg) == DiedIndexed(name, payload, cfg)
  {
    ManifestSteps(Renamed(name, payload, cfg), cfg);
  }

  lemma {:induction false} CommitDies(name: Name, payload: Payload, cfg: Config)
    ensures RunFrom(Initial(map[], cfg.Listing(map[])), DyingCommit(name, payload), cfg) == DiedIndexed(name, payload, cfg)
  {
    hide Step, Opened, Prepared, Renamed, DiedIndexed, Initial;
    CommitOpens(name, payload, cfg);
    CommitPrepares(name, payload, cfg);
    CommitRenames(name, payload, cfg);
    CommitIndexes(name, payload, cfg);
    var start, begin := Initial(map[], cfg.Listing(map[])), Begin(map[name := payload], [Change(name, None, Some(payload))]);
    UnfoldFour(start, StartRecovery, Load(true), begin, Open,
               [WriteNew] + ([WriteManifest] + ([MoveOut] + ([MoveIn] + ([WriteIndex] + ([Crash] + []))))), cfg);
    UnfoldFour(Opened(name, payload, cfg), WriteNew, WriteManifest, MoveOut, MoveIn, [WriteIndex] + ([Crash] + []), cfg);
    UnfoldTwo(Renamed(name, payload, cfg), WriteIndex, Crash, [], cfg);
  }

  lemma {:induction false} UnfoldTwo(s: State, a: Action, b: Action, rest: seq<Action>, cfg: Config)
    ensures RunFrom(s, [a] + ([b] + rest), cfg) == RunFrom(Step(Step(s, a, cfg), b, cfg), rest, cfg)
  {
    hide Step, RunFrom;
    FirstStep(s, a, [b] + rest, cfg);
    FirstStep(Step(s, a, cfg), b, rest, cfg);
  }

  lemma {:induction false} UnfoldFour(s: State, a: Action, b: Action, c: Action, d: Action, rest: seq<Action>, cfg: Config)
    ensures RunFrom(s, [a] + ([b] + ([c] + ([d] + rest))), cfg)
      == RunFrom(Step(Step(Step(Step(s, a, cfg), b, cfg), c, cfg), d, cfg), rest, cfg)
  {
    hide Step, RunFrom;
    UnfoldTwo(s, a, b, [c] + ([d] + rest), cfg);
    UnfoldTwo(Step(Step(s, a, cfg), b, cfg), c, d, rest, cfg);
  }

  /** Undone, with the manifest removed. */
  function Undone(name: Name, payload: Payload, cfg: Config): State {
    var s := DiedIndexed(name, payload, cfg);
    s.(disk := s.disk.(notes := map[], transaction := Some(Transaction(map[], map[], None))),
       phase := Cleaning(Recovering), found := s.disk)
  }

  lemma {:induction false} RecoveryUndoes(name: Name, payload: Payload, cfg: Config)
    ensures var s := Step(Step(DiedIndexed(name, payload, cfg), StartRecovery, cfg), Undo, cfg);
            Step(Step(s, FinishUndo, cfg), RemoveFile(ManifestFile), cfg) == Undone(name, payload, cfg)
  {
    var s := DiedIndexed(name, payload, cfg);
    RecoverySteps(s, cfg);
    var s1 := Step(s, StartRecovery, cfg);
    assert s1 == s.(phase := RollingBack(0), found := s.disk);
    var s2 := s1.(disk := s1.disk.(notes := map[]), phase := RollingBack(1));
    assert Step(s1, Undo, cfg) == s2 by { assert s.after - {name} == map[]; }
    var s3 := s2.(phase := Cleaning(Recovering));
    assert Step(s2, FinishUndo, cfg) == s3;
    CleaningSteps(s3, ManifestFile, cfg);
    hide Step;
  }

  lemma {:induction false} RecoveryStops(name: Name, payload: Payload, cfg: Config)
    ensures var s := Undone(name, payload, cfg);
            var r := Step(Step(Step(Step(s, RemoveDirectory, cfg), RemoveRoot(true), cfg), Crash, cfg), StartRecovery, cfg);
            r.phase.Recovered? && r.disk == Disk(map[], false, None, cfg.render(map[name := payload]))
  {
    var s := Undone(name, payload, cfg);
    CleaningSteps(s, ManifestFile, cfg);
    var s1 := Step(s, RemoveDirectory, cfg);
    RecoverySteps(s1, cfg);
    var s2 := Step(s1, RemoveRoot(true), cfg);
    assert Step(s2, Crash, cfg) == s2.(phase := Down);
    RecoverySteps(s2.(phase := Down), cfg);
    hide Step;
  }

  lemma {:induction false} RecoveryDies(name: Name, payload: Payload, cfg: Config)
    ensures var r := RunFrom(DiedIndexed(name, payload, cfg), DyingRecovery(), cfg);
            r.phase.Recovered? && r.disk == Disk(map[], false, None, cfg.render(map[name := payload]))
  {
    hide Step, Undone, DiedIndexed;
    var s := DiedIndexed(name, payload, cfg);
    RecoveryUndoes(name, payload, cfg);
    RecoveryStops(name, payload, cfg);
    UnfoldFour(s, StartRecovery, Undo, FinishUndo, RemoveFile(ManifestFile),
               [RemoveDirectory] + ([RemoveRoot(true)] + ([Crash] + ([StartRecovery] + []))), cfg);
    UnfoldFour(Undone(name, payload, cfg), RemoveDirectory, RemoveRoot(true), Crash, StartRecovery, [], cfg);
  }

  lemma {:induction false} RunFromConcat(s: State, x: seq<Action>, y: seq<Action>, cfg: Config)
    ensures RunFrom(s, x + y, cfg) == RunFrom(RunFrom(s, x, cfg), y, cfg)
    decreases |x|
  {
    hide Step;
    if x == [] {
      assert x + y == y;
    } else {
      assert (x + y)[1..] == x[1..] + y;
      RunFromConcat(Step(s, x[0], cfg), x[1..], y, cfg);
    }
  }

  /** Two crashes suffice for MEMORY.md to list a note that was never committed after a recovery that
      reports success: the second recovery finds no `.transactions` and leaves MEMORY.md alone. */
  lemma {:induction false} StaleListingSurvives(name: Name, payload: Payload, cfg: Config)
    requires cfg.render(map[name := payload]) != cfg.Listing(map[])
    ensures var s := Run(Initial(map[], cfg.Listing(map[])), DyingCommit(name, payload) + DyingRecovery(), cfg);
            && s.phase.Recovered? && s.disk.notes == map[] == Value(s)
            && s.disk.index == cfg.render(map[name := payload]) != cfg.Listing(s.disk.notes)
  {
    var s0 := Initial(map[], cfg.Listing(map[]));
    var actions := DyingCommit(name, payload) + DyingRecovery();
    CommitDies(name, payload, cfg);
    RecoveryDies(name, payload, cfg);
    RunFromConcat(s0, DyingCommit(name, payload), DyingRecovery(), cfg);
    RunIsRunFrom(s0, actions, cfg);
    hide DyingCommit, DyingRecovery, Run, RunFrom;
    RecoveryIsAtomic(map[], cfg.Listing(map[]), actions, cfg);
  }

  /** So does a commit that runs through; its listing is the one the budget was checked on. */
  lemma {:induction false} CommitIsAtomic(notes: Notes, index: string, actions: seq<Action>, cfg: Config)
    ensures var s := Run(Initial(notes, index), actions, cfg);
            s.phase.Committed? ==>
              && s.disk.notes == s.after == Value(s)
              && s.disk.index == cfg.render(s.after)
              && s.disk.transaction == None
  {
    InitialInv(notes, index, cfg);
    RunKeeps(Initial(notes, index), actions, cfg);
    hide Run;
  }

  /** Recovery gives up only where a transaction has no manifest: a mixture of old and new notes is
      never taken for a result, and never blocks a rollback either. */
  lemma {:induction false} RecoveryFailsOnlyWithoutManifest(notes: Notes, index: string, actions: seq<Action>, cfg: Config)
    ensures var s := Run(Initial(notes, index), actions, cfg);
            s.phase.RecoveryFailed? ==>
              s.disk.transaction.Some? && s.disk.transaction.value.manifest == None && s.disk.notes == Value(s)
  {
    InitialInv(notes, index, cfg);
    RunKeeps(Initial(notes, index), actions, cfg);
    hide Run;
  }

  // ---- the repository ----

  lemma {:induction false} RunSnoc(s: State, actions: seq<Action>, a: Action, cfg: Config)
    ensures Run(s, actions + [a], cfg) == Step(Run(s, actions, cfg), a, cfg)
  {
    hide Step;
    assert (actions + [a])[..|actions|] == actions;
  }

  function Size(t: Transaction): nat {
    |t.newFiles| + |t.backups| + if t.manifest.Some? then 1 else 0
  }

  predicate Holds(t: Transaction, file: File) {
    match file
    case NewFile(name) => name in t.newFiles
    case BackupFile(name) => name in t.backups
    case ManifestFile => t.manifest.Some?
  }

  lemma {:induction false} SmallerWithout(t: Transaction, file: File)
    requires Holds(t, file)
    ensures Size(Without(t, file)) < Size(t)
  {
    match file
    case NewFile(name) => assert (t.newFiles - {name}).Keys == t.newFiles.Keys - {name};
    case BackupFile(name) => assert (t.backups - {name}).Keys == t.backups.Keys - {name};
    case ManifestFile =>
  }

  method SomeFile(t: Transaction) returns (file: File)
    requires !Empty(t)
    ensures Holds(t, file)
  {
    if t.newFiles.Keys != {} {
      var name :| name in t.newFiles.Keys;
      return NewFile(name);
    }
    if t.backups.Keys != {} {
      var name :| name in t.backups.Keys;
      return BackupFile(name);
    }
    return ManifestFile;
  }

  lemma {:induction false} CleaningSteps(s: State, file: File, cfg: Config)
    requires s.phase.Cleaning? && s.disk.transaction.Some?
    ensures Step(s, RemoveFile(file), cfg) == SetTransaction(s, Without(s.disk.transaction.value, file))
    ensures Empty(s.disk.transaction.value) ==>
      Step(s, RemoveDirectory, cfg) == s.(disk := s.disk.(transaction := None), phase := RemovingRoot(s.phase.reason))
  {
  }

  lemma {:induction false} WriteNewStep(s: State, cfg: Config)
    requires s.phase.Preparing? && s.disk.transaction.Some? && s.phase.k < |s.changes|
    ensures var t, c := s.disk.transaction.value, s.changes[s.phase.k];
            Step(s, WriteNew, cfg)
            == SetTransaction(s, t.(newFiles := Put(t.newFiles, c.name, c.after))).(phase := Preparing(s.phase.k + 1))
  {
  }

  lemma {:induction false} ManifestSteps(s: State, cfg: Config)
    requires s.disk.transaction.Some?
    ensures s.phase.Preparing? && s.phase.k == |s.changes| ==>
      Step(s, WriteManifest, cfg)
      == SetTransaction(s, s.disk.transaction.value.(manifest := Some(Manifest(false, s.changes)))).(phase := Renaming(0, false))
    ensures s.phase.Renaming? && s.phase.j == |s.changes| ==>
      Step(s, WriteIndex, cfg) == s.(disk := s.disk.(index := cfg.render(s.after)), phase := Marking)
    ensures s.phase.Marking? ==>
      Step(s, MarkCommitted, cfg)
      == SetTransaction(s, s.disk.transaction.value.(manifest := Some(Manifest(true, s.changes)))).(phase := Cleaning(Committing), decided := true)
  {
  }

  /** Both renames of one line, as the commit loop makes them. */
  lemma {:induction false} RenameSteps(s: State, cfg: Config)
    requires Inv(s, cfg) && s.phase.Renaming? && s.phase.j < |s.changes|
    ensures s.disk.transaction.Some?
    ensures var d, c := s.disk, s.changes[s.phase.j];
            var t := d.transaction.value;
            && (!s.phase.movedOut ==>
                  Step(s, MoveOut, cfg) == s.(phase := Renaming(s.phase.j, true),
                    disk := if c.before.Some? && c.name in d.notes
                            then d.(notes := d.notes - {c.name},
                                    transaction := Some(t.(backups := t.backups[c.name := d.notes[c.name]])))
                            else d))
            && (s.phase.movedOut ==>
                  (c.after.Some? ==> c.name in t.newFiles)
                  && Step(s, MoveIn, cfg) == s.(phase := Renaming(s.phase.j + 1, false),
                    disk := if c.after.Some?
                            then d.(notes := d.notes[c.name := t.newFiles[c.name]],
                                    transaction := Some(t.(newFiles := t.newFiles - {c.name})))
                            else d))
  {
    hide DiskInv;
  }

  lemma {:induction false} RecoverySteps(s: State, cfg: Config)
    ensures Step(s, StartRecovery, cfg) == s.(found := s.disk, phase :=
      if !s.disk.root then Recovered
      else if s.disk.transaction.None? then RemovingRoot(Recovering)
      else match s.disk.transaction.value.manifest
           case None => RecoveryFailed
           case Some(m) => if m.committed then Cleaning(Recovering) else RollingBack(0))
    ensures s.phase.Reindexing? ==>
      Step(s, Reindex, cfg) == s.(disk := s.disk.(index := cfg.Listing(s.disk.notes)), phase := Recovered)
    ensures forall gone :: s.phase.RemovingRoot? ==>
      Step(s, RemoveRoot(gone), cfg)
      == s.(disk := s.disk.(root := s.disk.root && !gone), phase := AfterCleaning(s.phase.reason))
    ensures forall written :: s.phase.Recovered? ==>
      Step(s, Load(written), cfg)
      == s.(disk := if written then s.disk.(index := cfg.Listing(s.disk.notes)) else s.disk, phase := Loaded)
  {
  }

  lemma {:induction false} RollbackFacts(s: State, cfg: Config)
    requires Inv(s, cfg) && s.phase.RollingBack?
    ensures s.disk.transaction.Some? && s.disk.transaction.value.manifest == Some(Manifest(false, s.changes))
    ensures s.phase.undone <= |s.changes| && !s.decided
    ensures s.phase.undone == |s.changes| ==> Step(s, FinishUndo, cfg) == s.(phase := Cleaning(Recovering))
    ensures s.phase.undone < |s.changes| ==>
      var r := UndoChange(s.disk, s.disk.transaction.value, s.changes[s.phase.undone]);
      && r.Some? && r.value.transaction.Some? && r.value.root == s.disk.root
      && Step(s, Undo, cfg) == s.(disk := r.value, phase := RollingBack(s.phase.undone + 1))
  {
    if s.phase.undone < |s.changes| {
      assert s.changes[s.phase.undone] in s.changes;
      UndoSucceeds(s, s.changes[s.phase.undone]);
      hide UndoChange, Restorable, Describes, UnchangedElsewhere;
    }
  }

  /** One scope's directory. `done` lists every atomic operation since `origin`: had the process died
      after any of them, the disk would be that of the run so far. */
  class ScopeDirectory {
    const cfg: Config
    var disk: Disk
    ghost const origin: State
    ghost var done: seq<Action>

    ghost function Now(): State
      reads this
    {
      Run(origin, done, cfg)
    }

    ghost predicate Valid()
      reads this
    {
      Inv(origin, cfg) && Now().disk == disk
    }

    constructor (notes: Notes, index: string, cfg: Config)
      ensures Valid() && Now() == Initial(notes, index) && this.cfg == cfg
    {
      this.cfg := cfg;
      disk := Disk(notes, false, None, index);
      origin := Initial(notes, index);
      done := [];
      new;
      InitialInv(notes, index, cfg);
    }

    /** Whatever operation the process dies after, recovery finds the invariant. */
    lemma EveryPrefixIsSafe(k: nat)
      requires Valid() && k <= |done|
      ensures Inv(Run(origin, done[..k], cfg), cfg)
    {
      RunKeeps(origin, done[..k], cfg);
    }

    lemma NowIsSafe()
      requires Valid()
      ensures Inv(Now(), cfg)
    {
      RunKeeps(origin, done, cfg);
    }

    /** One atomic operation on the file system. */
    method Advance(d: Disk, ghost a: Action)
      requires Valid() && Step(Now(), a, cfg).disk == d
      modifies this
      ensures Valid() && disk == d && done == old(done) + [a]
      ensures Now() == Step(old(Now()), a, cfg)
    {
      hide Inv, Step, Run;
      RunSnoc(origin, done, a, cfg);
      disk := d;
      done := done + [a];
    }

    /** Removes `.transactions` if that is empty and can be removed; a failure is ignored. */
    method RemoveEmptyRoot(gone: bool)
      requires Valid() && Now().phase.RemovingRoot?
      modifies this
      ensures Valid() && old(done) <= done
      ensures Now() == old(Now()).(disk := old(disk).(root := old(disk).root && !gone),
                                   phase := AfterCleaning(old(Now()).phase.reason))
    {
      hide Inv, Step, Run;
      RecoverySteps(Now(), cfg);
      Advance(disk.(root := disk.root && !gone), RemoveRoot(gone));
    }

    /** Removes a transaction directory file by file, in whatever order the file system lists them. */
    method RemoveTransaction()
      requires Valid() && Now().phase.Cleaning? && disk.transaction.Some?
      modifies this
      ensures Valid() && old(done) <= done
      ensures Now() == old(Now()).(disk := old(disk).(transaction := None),
                                   phase := RemovingRoot(old(Now()).phase.reason))
    {
      hide Inv, Step, Run;
      ghost var before := Now();
      while !Empty(disk.transaction.value)
        invariant Valid() && old(done) <= done && disk.transaction.Some?
        invariant Now() == before.(disk := before.disk.(transaction := disk.transaction))
        decreases Size(disk.transaction.value)
      {
        var t := disk.transaction.value;
        var file := SomeFile(t);
        SmallerWithout(t, file);
        CleaningSteps(Now(), file, cfg);
        hide Without, Size, Empty;
        Advance(disk.(transaction := Some(Without(t, file))), RemoveFile(file));
      }
      CleaningSteps(Now(), ManifestFile, cfg);
      Advance(disk.(transaction := None), RemoveDirectory);
    }

    /** Which notes differ, one line each, in the given order of names. */
    static method Differences(current: Notes, final: Notes, names: seq<Name>) returns (changes: seq<Change>)
      requires forall i, j :: 0 <= i < j < |names| ==> names[i] != names[j]
      requires forall name :: name in current || name in final ==> name in names
      ensures Describes(changes, current, final)
    {
      changes := [];
      var i := 0;
      while i < |names|
        invariant i <= |names|
        invariant forall j, k :: 0 <= j < k < |changes| ==> changes[j].name != changes[k].name
        invariant forall c :: c in changes ==>
          c.name in names[..i] && c.before == Get(current, c.name) && c.after == Get(final, c.name)
        invariant forall name :: name in names[..i] && Get(current, name) != Get(final, name) ==>
          exists c :: c in changes && c.name == name
      {
        var name := names[i];
        assert names[..i + 1] == names[..i] + [name];
        assert name !in names[..i];
        if Get(current, name) != Get(final, name) {
          var c := Change(name, Get(current, name), Get(final, name));
          assert c in changes + [c];
          assert forall x :: x in changes ==> x in changes + [c];
          changes := changes + [c];
        }
        i := i + 1;
      }
      assert names[..i] == names;
      forall name | Get(current, name) != Get(final, name) ensures exists c :: c in changes && c.name == name {
        assert name in current || name in final;
      }
    }

    method WriteNewFiles(changes: seq<Change>)
      requires Valid() && Now().phase == Preparing(0) && Now().changes == changes && disk.transaction.Some?
      modifies this
      ensures Valid() && old(done) <= done && disk.transaction.Some?
      ensures Now() == old(Now()).(disk := disk, phase := Preparing(|changes|))
    {
      hide Inv, Step, Run;
      ghost var before := Now();
      var k := 0;
      while k < |changes|
        invariant k <= |changes| && Valid() && old(done) <= done && disk.transaction.Some?
        invariant Now() == before.(disk := disk, phase := Preparing(k))
      {
        var t, c := disk.transaction.value, changes[k];
        WriteNewStep(Now(), cfg);
        Advance(disk.(transaction := Some(t.(newFiles := Put(t.newFiles, c.name, c.after)))), WriteNew);
        k := k + 1;
      }
    }

    method RenameOne(c: Change)
      requires Valid() && Now().phase.Renaming? && !Now().phase.movedOut
      requires Now().phase.j < |Now().changes| && Now().changes[Now().phase.j] == c
      modifies this
      ensures Valid() && old(done) <= done
      ensures Now() == old(Now()).(disk := disk, phase := Renaming(old(Now()).phase.j + 1, false))
    {
      MoveOutOne(c);
      MoveInOne(c);
    }

    /** The note moves aside, if there was one. */
    method MoveOutOne(c: Change)
      requires Valid() && Now().phase.Renaming? && !Now().phase.movedOut
      requires Now().phase.j < |Now().changes| && Now().changes[Now().phase.j] == c
      modifies this
      ensures Valid() && old(done) <= done
      ensures Now() == old(Now()).(disk := disk, phase := Renaming(old(Now()).phase.j, true))
    {
      NowIsSafe();
      RenameSteps(Now(), cfg);
      hide Inv, Step, Run;
      var t := disk.transaction.value;
      if c.before.Some? && c.name in disk.notes {
        Advance(disk.(notes := disk.notes - {c.name},
                      transaction := Some(t.(backups := t.backups[c.name := disk.notes[c.name]]))), MoveOut);
      } else {
        Advance(disk, MoveOut);
      }
    }

    /** Its new text moves in, if there is one. */
    method MoveInOne(c: Change)
      requires Valid() && Now().phase.Renaming? && Now().phase.movedOut
      requires Now().phase.j < |Now().changes| && Now().changes[Now().phase.j] == c
      modifies this
      ensures Valid() && old(done) <= done
      ensures Now() == old(Now()).(disk := disk, phase := Renaming(old(Now()).phase.j + 1, false))
    {
      NowIsSafe();
      RenameSteps(Now(), cfg);
      hide Inv, Step, Run;
      var t := disk.transaction.value;
      if c.after.Some? {
        Advance(disk.(notes := disk.notes[c.name := t.newFiles[c.name]],
                      transaction := Some(t.(newFiles := t.newFiles - {c.name}))), MoveIn);
      } else {
        Advance(disk, MoveIn);
      }
    }

    method RenameNotes(changes: seq<Change>)
      requires Valid() && Now().phase == Renaming(0, false) && Now().changes == changes
      modifies this
      ensures Valid() && old(done) <= done
      ensures Now() == old(Now()).(disk := disk, phase := Renaming(|changes|, false))
    {
      hide Inv, Step, Run;
      ghost var before := Now();
      var j := 0;
      while j < |changes|
        invariant j <= |changes| && Valid() && old(done) <= done
        invariant Now() == before.(disk := disk, phase := Renaming(j, false))
      {
        RenameOne(changes[j]);
        j := j + 1;
      }
    }

    /** New files and the prepared manifest. */
    method PrepareCommit(final: Notes, changes: seq<Change>)
      requires Valid() && Now().phase.Loaded? && Describes(changes, disk.notes, final)
      modifies this
      ensures Valid() && old(done) <= done
      ensures Now() == State(disk, Renaming(0, false), changes, old(disk).notes, final, false, old(Now()).found)
    {
      NowIsSafe();
      BeginStep(Now(), final, changes, cfg);
      hide Step, Run, Inv, Describes;
      Advance(disk.(root := true), Begin(final, changes));
      OpenStep(Now(), cfg);
      Advance(disk.(transaction := Some(Transaction(map[], map[], None))), Open);
      WriteNewFiles(changes);
      ManifestSteps(Now(), cfg);
      Advance(disk.(transaction := Some(disk.transaction.value.(manifest := Some(Manifest(false, changes))))), WriteManifest);
    }

    /** Index, committed manifest, cleanup. */
    method FinishCommit(final: Notes, changes: seq<Change>, gone: bool)
      requires Valid() && Now().phase == Renaming(|changes|, false) && Now().changes == changes && Now().after == final
      modifies this
      ensures Valid() && old(done) <= done
      ensures Now().phase.Committed? && Now().before == old(Now()).before && Now().after == final
      ensures disk.root == !gone
    {
      NowIsSafe();
      RenamedHasTransaction(Now(), cfg);
      hide Step, Run, Inv;
      ManifestSteps(Now(), cfg);
      Advance(disk.(index := cfg.render(final)), WriteIndex);
      ManifestSteps(Now(), cfg);
      Advance(disk.(transaction := Some(disk.transaction.value.(manifest := Some(Manifest(true, changes))))), MarkCommitted);
      RemoveTransaction();
      RemoveEmptyRoot(gone);
    }

    /** Replaces the notes by `final`. Dying anywhere leaves a state in `done` that recovery can resolve. */
    method CommitScope(final: Notes, names: seq<Name>, gone: bool)
      requires Valid() && Now().phase.Loaded?
      requires forall i, j :: 0 <= i < j < |names| ==> names[i] != names[j]
      requires forall name :: name in disk.notes || name in final ==> name in names
      modifies this
      ensures Valid() && old(done) <= done
      ensures Now().phase.Committed? && Now().before == old(disk).notes && Now().after == final
      ensures disk == Disk(final, !gone, None, cfg.render(final))
    {
      hide Step, Run, Inv, Describes;
      var changes := Differences(disk.notes, final, names);
      PrepareCommit(final, changes);
      RenameNotes(changes);
      FinishCommit(final, changes, gone);
      NowIsSafe();
      CommittedFacts(Now(), cfg);
    }

    /** Undoes a prepared transaction line by line. */
    method RollbackPrepared(changes: seq<Change>)
      requires Valid() && Now().phase == RollingBack(0) && Now().changes == changes
      modifies this
      ensures Valid() && old(done) <= done && disk.transaction.Some? && disk.root == old(disk).root
      ensures Now() == old(Now()).(disk := disk, phase := RollingBack(|changes|))
    {
      hide Step, Run, Inv, UndoChange;
      ghost var before := Now();
      NowIsSafe();
      RollbackFacts(Now(), cfg);
      var j := 0;
      while j < |changes|
        invariant j <= |changes| && Valid() && old(done) <= done && disk.transaction.Some? && disk.root == old(disk).root
        invariant Now() == before.(disk := disk, phase := RollingBack(j))
      {
        NowIsSafe();
        RollbackFacts(Now(), cfg);
        var undone := UndoChange(disk, disk.transaction.value, changes[j]);
        Advance(undone.value, Undo);
        j := j + 1;
      }
    }

    /** Rolls a prepared transaction back, or leaves a committed one, and removes its directory. */
    method ResolveTransaction(manifest: Manifest)
      requires Valid() && disk.transaction.Some? && disk.transaction.value.manifest == Some(manifest)
      requires Now().phase == (if manifest.committed then Cleaning(Recovering) else RollingBack(0))
      modifies this
      ensures Valid() && old(done) <= done && disk.transaction.None?
      ensures Now() == old(Now()).(disk := disk, phase := RemovingRoot(Recovering))
      ensures disk.root == old(disk).root
    {
      hide Step, Run, Inv, UndoChange;
      if !manifest.committed {
        NowIsSafe();
        RollbackFacts(Now(), cfg);
        RollbackPrepared(manifest.changes);
        NowIsSafe();
        RollbackFacts(Now(), cfg);
        Advance(disk, FinishUndo);
      }
      RemoveTransaction();
    }

    /** `.transactions` goes if it can, and MEMORY.md is written. */
    method FinishRecovery(gone: bool)
      requires Valid() && Now().phase == RemovingRoot(Recovering) && disk.root
      modifies this
      ensures Valid() && old(done) <= done
      ensures Now().phase.Recovered? && Value(Now()) == Value(old(Now()))
      ensures disk == Disk(Value(old(Now())), !gone, None, cfg.Listing(Value(old(Now()))))
    {
      hide Step, Run, Inv;
      NowIsSafe();
      RemovingFacts(Now(), cfg);
      RemoveEmptyRoot(gone);
      RecoverySteps(Now(), cfg);
      Advance(disk.(index := cfg.Listing(disk.notes)), Reindex);
      NowIsSafe();
      RecoveredFacts(Now(), cfg);
    }

    /** Resolves whatever transaction a dead process left. It succeeds exactly if there is none or its
        manifest is there, and then the notes are those of the last committed transaction. MEMORY.md is
        written only if there was a `.transactions` directory. */
    method RecoverTransactions(gone: bool) returns (ok: bool)
      requires Valid()
      modifies this
      ensures Valid() && old(done) <= done
      ensures ok <==> old(disk).transaction.None? || old(disk).transaction.value.manifest.Some?
      ensures ok ==>
        && Now().phase.Recovered? && Value(Now()) == Value(old(Now()))
        && disk == (if old(disk).root
                    then Disk(Value(old(Now())), !gone, None, cfg.Listing(Value(old(Now()))))
                    else old(disk))
        && disk.notes == Value(old(Now())) && disk.transaction.None?
      ensures ok ==>
        (disk.index == cfg.Listing(disk.notes) <==> old(disk).root || old(disk).index == cfg.Listing(old(disk).notes))
      ensures !ok ==> disk == old(disk)
    {
      NowIsSafe();
      RootFacts(Now(), cfg);
      hide Step, Run, Inv, UndoChange;
      RecoverySteps(Now(), cfg);
      ghost var before := Now();
      Advance(disk, StartRecovery);
      if !disk.root {
        return true;
      }
      if disk.transaction.Some? {
        var manifest := disk.transaction.value.manifest;
        if manifest.None? {
          return false;
        }
        ResolveTransaction(manifest.value);
      }
      FinishRecovery(gone);
      return true;
    }

    /** Reading the scope after recovery rewrites MEMORY.md, if it can be written. */
    method LoadScope(written: bool) returns (notes: Notes)
      requires Valid() && Now().phase.Recovered?
      modifies this
      ensures Valid() && old(done) <= done && Now().phase.Loaded? && Value(Now()) == Value(old(Now()))
      ensures notes == disk.notes == old(disk).notes == Value(Now())
      ensures disk == if written then old(disk).(index := cfg.Listing(notes)) else old(disk)
    {
      NowIsSafe();
      RecoveredFacts(Now(), cfg);
      hide Step, Run, Inv;
      RecoverySteps(Now(), cfg);
      Advance(if written then disk.(index := cfg.Listing(disk.notes)) else disk, Load(written));
      return disk.notes;
    }
  }

  lemma {:induction false} RemovingFacts(s: State, cfg: Config)
    requires Inv(s, cfg) && s.phase == RemovingRoot(Recovering)
    ensures s.found.root && s.disk.transaction.None?
  {
  }

  lemma {:induction false} RootFacts(s: State, cfg: Config)
    requires Inv(s, cfg)
    ensures s.disk.transaction.Some? ==> s.disk.root
    ensures s.disk.transaction.None? ==> s.disk.notes == Value(s)
  {
  }

  lemma {:induction false} RecoveredFacts(s: State, cfg: Config)
    requires Inv(s, cfg) && s.phase.Recovered?
    ensures s.disk.notes == Value(s) && s.disk.transaction.None?
    ensures s.found.root ==> s.disk.index == cfg.Listing(Value(s))
  {
  }

  lemma {:induction false} BeginStep(s: State, final: Notes, changes: seq<Change>, cfg: Config)
    requires Inv(s, cfg) && s.phase.Loaded? && Describes(changes, s.disk.notes, final)
    ensures Step(s, Begin(final, changes), cfg)
      == State(s.disk.(root := true), Opening, changes, s.disk.notes, final, false, s.found)
    ensures s.disk.transaction.None?
  {
  }

  lemma {:induction false} OpenStep(s: State, cfg: Config)
    requires s.phase.Opening? && s.disk.transaction.None?
    ensures Step(s, Open, cfg) == SetTransaction(s, Transaction(map[], map[], None)).(phase := Preparing(0))
  {
  }

  lemma {:induction false} RenamedHasTransaction(s: State, cfg: Config)
    requires Inv(s, cfg) && s.phase.Renaming?
    ensures s.disk.transaction.Some?
  {
  }

  lemma {:induction false} CommittedFacts(s: State, cfg: Config)
    requires Inv(s, cfg) && s.phase.Committed?
    ensures s.disk == Disk(s.after, s.disk.root, None, cfg.render(s.after))
  {
  }
}

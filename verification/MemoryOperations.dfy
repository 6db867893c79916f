/** Batches of memory operations: what the parser accepts, what applying them leaves, and when a
    proposal may still be committed. */
module MemoryOperations {
  import opened Wrappers

  /** Canonical identifiers and timestamps, ordered as their texts are. */
  type Id = nat
  type Time = nat

  datatype Scope = UserScope | ProjectScope

  datatype Category = UserPreference | Correction | ProjectKnowledge | Reference {
    function Order(): nat {
      match this
      case UserPreference => 0
      case Correction => 1
      case ProjectKnowledge => 2
      case Reference => 3
    }
  }

  datatype Text = Text(summary: string, body: string, sources: seq<string>)

  datatype Entry = Entry(id: Id, scope: Scope, category: Category, text: Text, createdAt: Time, updatedAt: Time)

  datatype Operation =
    | Noop
    | Create(scope: Scope, category: Category, text: Text)
    | Update(id: Id, text: Text)
    | Merge(ids: seq<Id>, scope: Scope, category: Category, text: Text)
    | Delete(ids: seq<Id>)

  /** An operation and the random id it would use for a new entry. */
  datatype Step = Step(op: Operation, newId: Id)

  type Entries = map<Id, Entry>

  /** What is fixed while a batch is applied: its scope, the clock, and which entries may be stored. */
  datatype Setting = Setting(scope: Scope, now: Time, valid: Entry -> bool)

  // ---- what the parser accepts ----

  function IdSet(ids: seq<Id>): set<Id> {
    set id | id in ids
  }

  function Touched(op: Operation): set<Id> {
    match op
    case Update(id, _) => {id}
    case Merge(ids, _, _, _) => IdSet(ids)
    case Delete(ids) => IdSet(ids)
    case _ => {}
  }

  ghost predicate Distinct(ids: seq<Id>) {
    forall i, j :: 0 <= i < j < |ids| ==> ids[i] != ids[j]
  }

  ghost predicate WellFormed(op: Operation, visible: set<Id>) {
    && Touched(op) <= visible
    && (op.Merge? ==> 2 <= |op.ids| && Distinct(op.ids))
    && (op.Delete? ==> 1 <= |op.ids| && Distinct(op.ids))
  }

  /** No id is touched twice, and `noop` stands alone. */
  ghost predicate Compatible(ops: seq<Operation>) {
    && (forall i, j :: 0 <= i < j < |ops| ==> Touched(ops[i]) !! Touched(ops[j]))
    && (|ops| != 1 ==> forall op :: op in ops ==> !op.Noop?)
  }

  method HasDuplicates(ids: seq<Id>) returns (duplicates: bool)
    ensures duplicates <==> !Distinct(ids)
  {
    var seen: set<Id> := {};
    var i := 0;
    while i < |ids|
      invariant i <= |ids| && Distinct(ids[..i])
      invariant forall id :: id in seen <==> id in ids[..i]
    {
      assert ids[..i + 1] == ids[..i] + [ids[i]];
      if ids[i] in seen {
        var j :| 0 <= j < i && ids[..i][j] == ids[i];
        assert ids[j] == ids[i];
        return true;
      }
      seen := seen + {ids[i]};
      i := i + 1;
    }
    assert ids[..i] == ids;
    return false;
  }

  method ParseOperation(op: Operation, visible: set<Id>) returns (ok: bool)
    ensures ok <==> WellFormed(op, visible)
  {
    if !(Touched(op) <= visible) {
      return false;
    }
    if op.Merge? || op.Delete? {
      if |op.ids| < (if op.Merge? then 2 else 1) {
        return false;
      }
      var duplicates := HasDuplicates(op.ids);
      return !duplicates;
    }
    return true;
  }

  /** Every reference is to a visible entry and no two operations refer to the same one. */
  method ParseOperationBatch(ops: seq<Operation>, visible: set<Id>) returns (ok: bool)
    ensures ok <==> ops != [] && (forall op :: op in ops ==> WellFormed(op, visible)) && Compatible(ops)
  {
    if ops == [] {
      return false;
    }
    var touched: set<Id> := {};
    var noop := false;
    var i := 0;
    while i < |ops|
      invariant i <= |ops|
      invariant forall j :: 0 <= j < i ==> WellFormed(ops[j], visible)
      invariant forall j, k :: 0 <= j < k < i ==> Touched(ops[j]) !! Touched(ops[k])
      invariant forall id :: id in touched <==> exists j :: 0 <= j < i && id in Touched(ops[j])
      invariant noop <==> exists j :: 0 <= j < i && ops[j].Noop?
    {
      hide WellFormed, Touched;
      var fine := ParseOperation(ops[i], visible);
      if !fine {
        return false;
      }
      if touched * Touched(ops[i]) != {} {
        var id :| id in touched * Touched(ops[i]);
        var j :| 0 <= j < i && id in Touched(ops[j]);
        assert !(Touched(ops[j]) !! Touched(ops[i]));
        return false;
      }
      forall j | 0 <= j < i ensures Touched(ops[j]) !! Touched(ops[i]) {
        forall id | id in Touched(ops[j]) ensures id !in Touched(ops[i]) {
          assert id in touched;
          assert id !in touched * Touched(ops[i]);
        }
      }
      touched := touched + Touched(ops[i]);
      noop := noop || ops[i].Noop?;
      i := i + 1;
    }
    return !(noop && |ops| != 1);
  }

  // ---- applying ----

  datatype Applied = Applied(entries: Entries, changed: seq<Id>) | UnknownId | InvalidScope | InvalidEntry | Crash

  function NewEntry(s: Step, now: Time): Entry
    requires s.op.Create? || s.op.Merge?
  {
    Entry(s.newId, s.op.scope, s.op.category, s.op.text, now, now)
  }

  function Updated(current: Entry, text: Text, now: Time): Entry {
    current.(text := text, updatedAt := now)
  }

  function ApplyOne(entries: Entries, changed: seq<Id>, s: Step, setting: Setting): Applied {
    match s.op
    case Noop => Applied(entries, changed)
    case Create(scope, _, _) =>
      if scope != setting.scope then InvalidScope
      else if !setting.valid(NewEntry(s, setting.now)) then InvalidEntry
      else Applied(entries[s.newId := NewEntry(s, setting.now)], changed + [s.newId])
    case Update(id, text) =>
      if id !in entries then UnknownId
      else
        var entry := Updated(entries[id], text, setting.now);
        if !setting.valid(entry) then InvalidEntry else Applied(entries[id := entry], changed + [id])
    case Merge(ids, scope, _, _) =>
      if scope != setting.scope || !(Touched(s.op) <= entries.Keys) then UnknownId
      else if |Touched(s.op)| != |ids| then Crash
      else if !setting.valid(NewEntry(s, setting.now)) then InvalidEntry
      else Applied((entries - Touched(s.op))[s.newId := NewEntry(s, setting.now)], changed + [s.newId])
    case Delete(ids) =>
      if !(Touched(s.op) <= entries.Keys) || |Touched(s.op)| != |ids| then UnknownId
      else Applied(entries - Touched(s.op), changed)
  }

  function ApplyAll(entries: Entries, steps: seq<Step>, setting: Setting): Applied {
    if steps == [] then Applied(entries, [])
    else
      var before := ApplyAll(entries, steps[..|steps| - 1], setting);
      if before.Applied? then ApplyOne(before.entries, before.changed, steps[|steps| - 1], setting) else before
  }

  // ---- the result without an order ----

  predicate Creates(s: Step) {
    s.op.Create? || s.op.Merge?
  }

  function Removed(s: Step): set<Id> {
    if s.op.Merge? || s.op.Delete? then Touched(s.op) else {}
  }

  /** Ids are touched once, new ids are new and differ, and nothing occurs twice: what the parser and
      random ids guarantee of a batch, whatever its order. */
  ghost predicate Independent(entries: Entries, steps: set<Step>) {
    && (forall s, t :: s in steps && t in steps && s != t ==> Touched(s.op) !! Touched(t.op) && s.newId != t.newId)
    && (forall s :: s in steps ==> s.newId !in entries)
    && (forall s, t :: s in steps && t in steps ==> s.newId !in Touched(t.op))
    && (forall s :: s in steps && (s.op.Merge? || s.op.Delete?) ==> |Touched(s.op)| == |s.op.ids|)
  }

  /** Whether one operation can be carried out, judged on the entries the batch started from. */
  predicate Good(entries: Entries, s: Step, setting: Setting) {
    match s.op
    case Noop => true
    case Create(scope, _, _) => scope == setting.scope && setting.valid(NewEntry(s, setting.now))
    case Update(id, text) => id in entries && setting.valid(Updated(entries[id], text, setting.now))
    case Merge(_, scope, _, _) =>
      scope == setting.scope && Touched(s.op) <= entries.Keys && setting.valid(NewEntry(s, setting.now))
    case Delete(_) => Touched(s.op) <= entries.Keys
  }

  predicate MakesNew(s: Step, id: Id) {
    Creates(s) && s.newId == id
  }

  predicate Updates(s: Step, id: Id) {
    s.op.Update? && s.op.id == id
  }

  ghost predicate CreatedIn(steps: set<Step>, id: Id) {
    exists s :: s in steps && MakesNew(s, id)
  }

  ghost predicate RemovedIn(steps: set<Step>, id: Id) {
    exists s :: s in steps && id in Removed(s)
  }

  ghost predicate UpdatedIn(steps: set<Step>, id: Id) {
    exists s :: s in steps && Updates(s, id)
  }

  ghost function Creator(steps: set<Step>, id: Id): (s: Step)
    requires CreatedIn(steps, id)
    ensures s in steps && MakesNew(s, id)
  {
    var s :| s in steps && MakesNew(s, id);
    s
  }

  ghost function Updater(steps: set<Step>, id: Id): (s: Step)
    requires UpdatedIn(steps, id)
    ensures s in steps && Updates(s, id)
  {
    var s :| s in steps && Updates(s, id);
    s
  }

  /** What stands under an id afterwards, if anything, read off the set of operations. */
  ghost function Becomes(entries: Entries, steps: set<Step>, setting: Setting, id: Id): Option<Entry> {
    if CreatedIn(steps, id) then Some(NewEntry(Creator(steps, id), setting.now))
    else if RemovedIn(steps, id) || id !in entries then None
    else if UpdatedIn(steps, id) then Some(Updated(entries[id], Updater(steps, id).op.text, setting.now))
    else Some(entries[id])
  }

  ghost predicate Matches(result: Entries, entries: Entries, steps: set<Step>, setting: Setting) {
    forall id :: Becomes(entries, steps, setting, id) == if id in result then Some(result[id]) else None
  }

  lemma {:induction false} OneCreator(entries: Entries, steps: set<Step>, s: Step)
    requires Independent(entries, steps) && s in steps && Creates(s)
    ensures CreatedIn(steps, s.newId) && Creator(steps, s.newId) == s
  {
    assert MakesNew(s, s.newId);
    var t := Creator(steps, s.newId);
    assert t == s;
  }

  lemma {:induction false} OneUpdater(entries: Entries, steps: set<Step>, s: Step)
    requires Independent(entries, steps) && s in steps && s.op.Update?
    ensures UpdatedIn(steps, s.op.id) && Updater(steps, s.op.id) == s
    ensures !RemovedIn(steps, s.op.id)
  {
    assert Updates(s, s.op.id);
    var t := Updater(steps, s.op.id);
    assert s.op.id in Touched(s.op) && s.op.id in Touched(t.op);
    assert forall u :: u in steps && u != s ==> s.op.id !in Touched(u.op);
    assert forall u :: u in steps ==> Removed(u) <= Touched(u.op);
  }

  lemma {:induction false} MemberOfMore(steps: set<Step>, s: Step, id: Id)
    ensures CreatedIn(steps + {s}, id) <==> CreatedIn(steps, id) || MakesNew(s, id)
    ensures RemovedIn(steps + {s}, id) <==> RemovedIn(steps, id) || id in Removed(s)
    ensures UpdatedIn(steps + {s}, id) <==> UpdatedIn(steps, id) || Updates(s, id)
  {
    assert forall t :: t in steps + {s} <==> t in steps || t == s;
    assert s in steps + {s};
    hide Removed, MakesNew, Updates;
    if CreatedIn(steps, id) { var t :| t in steps && MakesNew(t, id); assert t in steps + {s}; }
    if RemovedIn(steps, id) { var t :| t in steps && id in Removed(t); assert t in steps + {s}; }
    if UpdatedIn(steps, id) { var t :| t in steps && Updates(t, id); assert t in steps + {s}; }
  }

  /** One more operation changes only what it touches or creates. */
  lemma {:induction false} BecomesMore(entries: Entries, steps: set<Step>, setting: Setting, s: Step, id: Id)
    requires Independent(entries, steps + {s}) && s !in steps
    ensures Becomes(entries, steps + {s}, setting, id) ==
      if MakesNew(s, id) then Some(NewEntry(s, setting.now))
      else if id in Removed(s) then None
      else if Updates(s, id) then
        if id in entries then Some(Updated(entries[id], s.op.text, setting.now)) else None
      else Becomes(entries, steps, setting, id)
  {
    var more := steps + {s};
    assert s in more;
    MemberOfMore(steps, s, id);
    IndependentLess(entries, steps, s);
    if MakesNew(s, id) {
      OneCreator(entries, more, s);
    } else if CreatedIn(steps, id) {
      var t := Creator(steps, id);
      OneCreator(entries, more, t);
      OneCreator(entries, steps, t);
      assert t in more && id !in Touched(s.op);
      assert id !in Removed(s) && !Updates(s, id);
    } else if Updates(s, id) {
      OneUpdater(entries, more, s);
    } else if UpdatedIn(steps, id) {
      var t := Updater(steps, id);
      OneUpdater(entries, more, t);
      OneUpdater(entries, steps, t);
    }
    hide Independent, CreatedIn, RemovedIn, UpdatedIn, Creator, Updater, NewEntry, Updated;
  }

  lemma {:induction false} IndependentLess(entries: Entries, steps: set<Step>, s: Step)
    requires Independent(entries, steps + {s})
    ensures Independent(entries, steps)
  {
    assert forall t :: t in steps ==> t in steps + {s};
  }

  function AsBefore(entries: Entries, id: Id): Option<Entry> {
    if id in entries then Some(entries[id]) else None
  }

  lemma {:induction false} UntouchedStays(entries: Entries, steps: set<Step>, setting: Setting, id: Id)
    requires forall s :: s in steps ==> id !in Touched(s.op) && (Creates(s) ==> s.newId != id)
    ensures Becomes(entries, steps, setting, id) == AsBefore(entries, id)
  {
    assert forall s :: s in steps && s.op.Update? ==> s.op.id in Touched(s.op);
    assert forall s :: s in steps ==> Removed(s) <= Touched(s.op);
    assert !CreatedIn(steps, id) && !RemovedIn(steps, id) && !UpdatedIn(steps, id);
  }

  /** What an operation is about is still as the batch found it when its turn comes. */
  lemma {:induction false} TurnFindsOriginals(entries: Entries, steps: set<Step>, setting: Setting, s: Step,
                                             current: Entries, id: Id)
    requires Independent(entries, steps + {s}) && s !in steps && Matches(current, entries, steps, setting)
    requires id in Touched(s.op)
    ensures AsBefore(current, id) == AsBefore(entries, id)
  {
    forall t | t in steps ensures id !in Touched(t.op) && (Creates(t) ==> t.newId != id) {
      assert t in steps + {s} && s in steps + {s} && t != s;
    }
    UntouchedStays(entries, steps, setting, id);
    assert Becomes(entries, steps, setting, id) == AsBefore(current, id);
  }

  lemma {:induction false} SameMembers(a: Entries, b: Entries, ids: set<Id>)
    requires forall id :: id in ids ==> AsBefore(a, id) == AsBefore(b, id)
    ensures ids <= a.Keys <==> ids <= b.Keys
  {
    assert forall id :: id in ids ==> (id in a <==> id in b);
  }

  lemma {:induction false} ApplyOneIffGood(entries: Entries, steps: set<Step>, setting: Setting, s: Step,
                                          current: Entries, changed: seq<Id>)
    requires Independent(entries, steps + {s}) && s !in steps && Matches(current, entries, steps, setting)
    ensures ApplyOne(current, changed, s, setting).Applied? <==> Good(entries, s, setting)
  {
    forall id | id in Touched(s.op) ensures AsBefore(current, id) == AsBefore(entries, id) {
      TurnFindsOriginals(entries, steps, setting, s, current, id);
    }
    assert s in steps + {s};
    hide Matches, Becomes;
    match s.op
    case Update(id, _) => assert AsBefore(current, id) == AsBefore(entries, id);
    case Merge(_, _, _, _) => SameMembers(current, entries, Touched(s.op));
    case Delete(_) => SameMembers(current, entries, Touched(s.op));
    case _ =>
  }

  lemma {:induction false} ApplyOneMatches(entries: Entries, steps: set<Step>, setting: Setting, s: Step,
                                          current: Entries, changed: seq<Id>)
    requires Independent(entries, steps + {s}) && s !in steps && Matches(current, entries, steps, setting)
    requires ApplyOne(current, changed, s, setting).Applied?
    ensures Matches(ApplyOne(current, changed, s, setting).entries, entries, steps + {s}, setting)
  {
    var result := ApplyOne(current, changed, s, setting).entries;
    if s.op.Update? {
      TurnFindsOriginals(entries, steps, setting, s, current, s.op.id);
      assert current[s.op.id] == entries[s.op.id];
    }
    forall id ensures Becomes(entries, steps + {s}, setting, id) == AsBefore(result, id) {
      BecomesMore(entries, steps, setting, s, id);
      assert Becomes(entries, steps, setting, id) == AsBefore(current, id);
      hide Becomes, Independent;
    }
  }

  function SetOf(steps: seq<Step>): set<Step> {
    set s | s in steps
  }

  ghost predicate NoRepeats(steps: seq<Step>) {
    forall i, j :: 0 <= i < j < |steps| ==> steps[i] != steps[j]
  }

  lemma {:induction false} MatchesNothing(entries: Entries, setting: Setting)
    ensures Matches(entries, entries, {}, setting)
  {
    forall id ensures Becomes(entries, {}, setting, id) == AsBefore(entries, id) {
      UntouchedStays(entries, {}, setting, id);
    }
  }

  /** Applying an independent batch succeeds exactly if every operation is good on its own, and the
      result can be read off the set of operations. */
  lemma {:induction false} ApplyAllIsSpecified(entries: Entries, steps: seq<Step>, setting: Setting)
    requires NoRepeats(steps) && Independent(entries, SetOf(steps))
    ensures var r := ApplyAll(entries, steps, setting);
            && (r.Applied? <==> forall s :: s in steps ==> Good(entries, s, setting))
            && (r.Applied? ==> Matches(r.entries, entries, SetOf(steps), setting))
  {
    if steps == [] {
      MatchesNothing(entries, setting);
      assert SetOf(steps) == {};
    } else {
      var front, last := steps[..|steps| - 1], steps[|steps| - 1];
      assert steps == front + [last];
      assert SetOf(steps) == SetOf(front) + {last};
      assert last !in SetOf(front);
      IndependentLess(entries, SetOf(front), last);
      ApplyAllIsSpecified(entries, front, setting);
      var before := ApplyAll(entries, front, setting);
      hide Independent, Matches, Good, ApplyOne;
      if before.Applied? {
        ApplyOneIffGood(entries, SetOf(front), setting, last, before.entries, before.changed);
        if ApplyOne(before.entries, before.changed, last, setting).Applied? {
          ApplyOneMatches(entries, SetOf(front), setting, last, before.entries, before.changed);
        }
      }
    }
  }

  /** What an operation of an applied batch leaves: a new entry as it was asked for, a changed one with the new text
      and time and otherwise as it was, and nothing of what it merged or deleted. */
  ghost predicate TakesEffect(s: Step, entries: Entries, result: Entries, now: Time) {
    match s.op
    case Noop => true
    case Create(scope, category, text) => s.newId in result && result[s.newId] == Entry(s.newId, scope, category, text, now, now)
    case Update(id, text) =>
      id in entries && id in result
      && result[id] == Entry(entries[id].id, entries[id].scope, entries[id].category, text, entries[id].createdAt, now)
    case Merge(ids, scope, category, text) =>
      && s.newId in result && result[s.newId] == Entry(s.newId, scope, category, text, now, now)
      && forall id :: id in ids && id != s.newId ==> id !in result
    case Delete(ids) => forall id :: id in ids ==> id !in result
  }

  lemma {:induction false} EachTakesEffect(entries: Entries, steps: seq<Step>, setting: Setting, s: Step)
    requires NoRepeats(steps) && Independent(entries, SetOf(steps)) && s in steps
    requires ApplyAll(entries, steps, setting).Applied?
    ensures TakesEffect(s, entries, ApplyAll(entries, steps, setting).entries, setting.now)
  {
    var result, all := ApplyAll(entries, steps, setting).entries, SetOf(steps);
    assert s in all;
    ApplyAllIsSpecified(entries, steps, setting);
    assert Good(entries, s, setting);
    if Creates(s) { OneCreator(entries, all, s); }
    if s.op.Update? {
      OneUpdater(entries, all, s);
      NotCreated(entries, all, s.op.id, s);
    }
    assert forall id :: Becomes(entries, all, setting, id) == AsBefore(result, id);
    forall id | id in Removed(s) ensures Becomes(entries, all, setting, id) == None {
      NotCreated(entries, all, id, s);
      assert RemovedIn(all, id);
    }
    hide ApplyAll, Matches, Independent, CreatedIn, RemovedIn, UpdatedIn, Creator, Updater;
  }

  /** The ids reported as changed are those of the new and the changed entries, in the order of the operations. */
  lemma {:induction false} ReportsChanges(entries: Entries, steps: seq<Step>, setting: Setting)
    requires ApplyAll(entries, steps, setting).Applied?
    ensures ApplyAll(entries, steps, setting).changed == Reported(steps)
  {
    if steps != [] {
      var front := steps[..|steps| - 1];
      ReportsChanges(entries, front, setting);
    }
  }

  function Reported(steps: seq<Step>): seq<Id> {
    if steps == [] then []
    else
      var last := steps[|steps| - 1];
      Reported(steps[..|steps| - 1])
      + (match last.op
         case Noop => []
         case Create(_, _, _) => [last.newId]
         case Update(id, _) => [id]
         case Merge(_, _, _, _) => [last.newId]
         case Delete(_) => [])
  }

  /** No operation creates what another is about. */
  lemma {:induction false} NotCreated(entries: Entries, steps: set<Step>, id: Id, s: Step)
    requires Independent(entries, steps) && s in steps && id in Touched(s.op)
    ensures !CreatedIn(steps, id)
  {
  }

  /** What the first operation that cannot be carried out fails with. */
  function Failure(entries: Entries, s: Step, setting: Setting): Applied {
    if s.op.Create? && s.op.scope != setting.scope then InvalidScope
    else if s.op.Merge? && s.op.scope != setting.scope then UnknownId
    else if !(Touched(s.op) <= entries.Keys) then UnknownId
    else InvalidEntry
  }

  /** The operation at `k` is the first that cannot be carried out. */
  ghost predicate FirstBad(entries: Entries, steps: seq<Step>, setting: Setting, k: int) {
    && 0 <= k < |steps| && !Good(entries, steps[k], setting)
    && forall j :: 0 <= j < k ==> Good(entries, steps[j], setting)
  }

  /** A batch that fails does so with the failure of its first bad operation, judged on the entries it started from. */
  lemma {:induction false} FirstFailureDecides(entries: Entries, steps: seq<Step>, setting: Setting)
    requires NoRepeats(steps) && Independent(entries, SetOf(steps)) && !ApplyAll(entries, steps, setting).Applied?
    ensures exists k :: FirstBad(entries, steps, setting, k)
                        && ApplyAll(entries, steps, setting) == Failure(entries, steps[k], setting)
  {
    var front, last := steps[..|steps| - 1], steps[|steps| - 1];
    assert steps == front + [last];
    assert SetOf(steps) == SetOf(front) + {last} && last !in SetOf(front);
    IndependentLess(entries, SetOf(front), last);
    ApplyAllIsSpecified(entries, front, setting);
    var before := ApplyAll(entries, front, setting);
    if before.Applied? {
      ApplyOneIffGood(entries, SetOf(front), setting, last, before.entries, before.changed);
      FailsWith(entries, SetOf(front), setting, last, before.entries, before.changed);
      forall j | 0 <= j < |front| ensures Good(entries, steps[j], setting) { assert steps[j] in front; }
      hide Good, ApplyOne, Failure, Independent, Matches;
      assert FirstBad(entries, steps, setting, |front|);
    } else {
      FirstFailureDecides(entries, front, setting);
      hide Good, ApplyOne, Failure, Independent, Matches, ApplyAll;
      var k :| FirstBad(entries, front, setting, k) && before == Failure(entries, front[k], setting);
      assert steps[k] == front[k] && forall j :: 0 <= j < k ==> steps[j] == front[j];
      assert FirstBad(entries, steps, setting, k);
    }
  }

  lemma {:induction false} FailsWith(entries: Entries, steps: set<Step>, setting: Setting, s: Step, current: Entries,
                                     changed: seq<Id>)
    requires Independent(entries, steps + {s}) && s !in steps && Matches(current, entries, steps, setting)
    requires !ApplyOne(current, changed, s, setting).Applied?
    ensures ApplyOne(current, changed, s, setting) == Failure(entries, s, setting)
  {
    forall id | id in Touched(s.op) ensures AsBefore(current, id) == AsBefore(entries, id) {
      TurnFindsOriginals(entries, steps, setting, s, current, id);
    }
    assert s in steps + {s};
    hide Matches, Becomes;
    match s.op
    case Update(id, _) => assert AsBefore(current, id) == AsBefore(entries, id);
    case Merge(_, _, _, _) => SameMembers(current, entries, Touched(s.op));
    case Delete(_) => SameMembers(current, entries, Touched(s.op));
    case _ =>
  }

  lemma {:induction false} SameMatchIsSame(a: Entries, b: Entries, entries: Entries, steps: set<Step>, setting: Setting)
    requires Matches(a, entries, steps, setting) && Matches(b, entries, steps, setting)
    ensures a == b
  {
    forall id ensures AsBefore(a, id) == AsBefore(b, id) {
      assert Becomes(entries, steps, setting, id) == AsBefore(a, id);
      assert Becomes(entries, steps, setting, id) == AsBefore(b, id);
    }
    assert forall id :: id in a ==> AsBefore(a, id).Some?;
    assert forall id :: id in b ==> AsBefore(b, id).Some?;
    assert a.Keys == b.Keys;
    assert forall id :: id in a ==> a[id] == AsBefore(a, id).value && b[id] == AsBefore(b, id).value;
  }

  lemma {:induction false} PermutedSteps(x: seq<Step>, y: seq<Step>)
    requires NoRepeats(x) && multiset(x) == multiset(y)
    ensures NoRepeats(y) && SetOf(x) == SetOf(y)
  {
    forall s ensures s in x <==> s in y {
      assert s in multiset(x) <==> s in x;
      assert s in multiset(y) <==> s in y;
    }
    forall i, j | 0 <= i < j < |y| ensures y[i] != y[j] {
      if y[i] == y[j] {
        assert y == y[..i] + [y[i]] + y[i + 1..j] + [y[j]] + y[j + 1..];
        assert multiset(y)[y[i]] >= 2;
        OnlyOnce(x, y[i]);
        assert false;
      }
    }
  }

  lemma {:induction false} OnlyOnce(steps: seq<Step>, s: Step)
    requires NoRepeats(steps)
    ensures multiset(steps)[s] <= 1
  {
    if steps != [] {
      var front, last := steps[..|steps| - 1], steps[|steps| - 1];
      assert steps == front + [last];
      OnlyOnce(front, s);
      if s == last { assert last !in front; }
    }
  }

  /** The order of an accepted batch does not matter: in any order it succeeds or fails alike, and leaves
      the same entries. */
  lemma {:induction false} OrderDoesNotMatter(entries: Entries, x: seq<Step>, y: seq<Step>, setting: Setting)
    requires NoRepeats(x) && Independent(entries, SetOf(x)) && multiset(x) == multiset(y)
    ensures var a, b := ApplyAll(entries, x, setting), ApplyAll(entries, y, setting);
            && (a.Applied? <==> b.Applied?)
            && (a.Applied? ==> a.entries == b.entries)
  {
    PermutedSteps(x, y);
    ApplyAllIsSpecified(entries, x, setting);
    ApplyAllIsSpecified(entries, y, setting);
    assert forall s :: s in x <==> s in SetOf(x);
    assert forall s :: s in y <==> s in SetOf(y);
    var a, b := ApplyAll(entries, x, setting), ApplyAll(entries, y, setting);
    hide ApplyAll, Independent, Good, Matches;
    if a.Applied? && b.Applied? {
      SameMatchIsSame(a.entries, b.entries, entries, SetOf(x), setting);
    }
  }

  /** Entries no operation refers to are left as they were. */
  lemma {:induction false} OthersAreUnchanged(entries: Entries, steps: seq<Step>, setting: Setting, id: Id)
    requires NoRepeats(steps) && Independent(entries, SetOf(steps))
    requires id in entries && forall s :: s in steps ==> id !in Touched(s.op)
    ensures var r := ApplyAll(entries, steps, setting);
            r.Applied? ==> id in r.entries && r.entries[id] == entries[id]
  {
    ApplyAllIsSpecified(entries, steps, setting);
    var r := ApplyAll(entries, steps, setting);
    if r.Applied? {
      UntouchedStays(entries, SetOf(steps), setting, id);
      assert Becomes(entries, SetOf(steps), setting, id) == AsBefore(r.entries, id);
    }
  }

  /** An accepted batch with new random ids is independent. */
  lemma {:induction false} AcceptedIsIndependent(entries: Entries, steps: seq<Step>, ops: seq<Operation>, visible: set<Id>)
    requires |steps| == |ops| && forall i :: 0 <= i < |ops| ==> steps[i].op == ops[i]
    requires (forall op :: op in ops ==> WellFormed(op, visible)) && Compatible(ops)
    requires forall i, j :: 0 <= i < j < |steps| ==> steps[i].newId != steps[j].newId
    requires forall s :: s in steps ==> s.newId !in entries && s.newId !in visible
    ensures NoRepeats(steps) && Independent(entries, SetOf(steps))
  {
    forall s | s in steps ensures WellFormed(s.op, visible) {
      var i :| 0 <= i < |steps| && steps[i] == s;
      assert ops[i] in ops;
    }
    forall s | s in steps && (s.op.Merge? || s.op.Delete?) ensures |Touched(s.op)| == |s.op.ids| {
      DistinctCount(s.op.ids);
    }
    assert forall s :: s in SetOf(steps) <==> s in steps;
    forall s, t | s in SetOf(steps) && t in SetOf(steps) ensures s.newId !in Touched(t.op) {
      assert WellFormed(t.op, visible);
    }
    forall s, t | s in SetOf(steps) && t in SetOf(steps) && s != t
      ensures Touched(s.op) !! Touched(t.op) && s.newId != t.newId
    {
      var i :| 0 <= i < |steps| && steps[i] == s;
      var j :| 0 <= j < |steps| && steps[j] == t;
      if i < j {
        assert Touched(ops[i]) !! Touched(ops[j]);
      } else {
        assert Touched(ops[j]) !! Touched(ops[i]);
      }
    }
  }

  lemma {:induction false} DistinctCount(ids: seq<Id>)
    requires Distinct(ids)
    ensures |IdSet(ids)| == |ids|
  {
    if ids != [] {
      var front, last := ids[..|ids| - 1], ids[|ids| - 1];
      DistinctCount(front);
      IdSetSnoc(front, last);
      assert ids == front + [last];
      assert last !in front;
    }
  }

  lemma {:induction false} IdSetSnoc(front: seq<Id>, last: Id)
    ensures IdSet(front + [last]) == IdSet(front) + {last}
    ensures last !in front ==> last !in IdSet(front)
  {
  }

  // ---- order of entries, digest, commit ----

  /** Category first, then last change, then id. */
  predicate Before(a: Entry, b: Entry) {
    a.category.Order() < b.category.Order()
    || (a.category.Order() == b.category.Order()
        && (a.updatedAt < b.updatedAt || (a.updatedAt == b.updatedAt && a.id < b.id)))
  }

  ghost predicate Keyed(entries: Entries) {
    forall id :: id in entries ==> entries[id].id == id
  }

  /** By category; within one the entry longest unchanged first, and of those changed together the lower id. */
  predicate InOrder(a: Entry, b: Entry) {
    && a.category.Order() <= b.category.Order()
    && (a.category.Order() == b.category.Order() ==> a.updatedAt <= b.updatedAt && (a.updatedAt == b.updatedAt ==> a.id < b.id))
  }

  ghost predicate Ordered(list: seq<Entry>) {
    forall i, j :: 0 <= i < j < |list| ==> InOrder(list[i], list[j])
  }

  lemma BeforeIsOrder(a: Entry, b: Entry)
    ensures Before(a, b) <==> InOrder(a, b)
    ensures a.id != b.id ==> InOrder(a, b) || InOrder(b, a)
  {
  }

  lemma OrderChains(a: Entry, b: Entry, c: Entry)
    requires InOrder(a, b) && InOrder(b, c)
    ensures InOrder(a, c)
  {
  }

  ghost predicate Lists(list: seq<Entry>, entries: Entries) {
    && Ordered(list)
    && (forall e :: e in list <==> e.id in entries && entries[e.id] == e)
  }

  function InsertEntry(e: Entry, list: seq<Entry>): seq<Entry> {
    if list == [] then [e]
    else if Before(e, list[0]) then [e] + list
    else [list[0]] + InsertEntry(e, list[1..])
  }

  lemma {:induction false} InsertEntryMembers(e: Entry, list: seq<Entry>)
    ensures forall x :: x in InsertEntry(e, list) <==> x == e || x in list
  {
    if list != [] && !Before(e, list[0]) { InsertEntryMembers(e, list[1..]); }
  }

  lemma {:induction false} InsertEntryOrdered(e: Entry, list: seq<Entry>)
    requires Ordered(list) && forall x :: x in list ==> x.id != e.id
    ensures Ordered(InsertEntry(e, list))
  {
    hide InOrder, Before;
    if list != [] {
      assert list[0] in list;
      BeforeIsOrder(e, list[0]);
      BeforeIsOrder(list[0], e);
      if !Before(e, list[0]) {
        var rest := InsertEntry(e, list[1..]);
        InsertEntryOrdered(e, list[1..]);
        InsertEntryMembers(e, list[1..]);
        forall i | 0 <= i < |rest| ensures InOrder(list[0], rest[i]) {
          assert rest[i] in rest;
        }
      } else {
        forall i | 0 <= i < |list| ensures InOrder(e, list[i]) {
          if i > 0 { OrderChains(e, list[0], list[i]); }
        }
      }
    }
  }

  /** The entries of a scope as they are listed, whatever order the dictionary holds them in. */
  method SortEntries(entries: Entries) returns (list: seq<Entry>)
    requires Keyed(entries)
    ensures Lists(list, entries)
  {
    list := [];
    var ids := entries.Keys;
    while ids != {}
      invariant ids <= entries.Keys && Ordered(list)
      invariant forall e :: e in list <==> e.id in entries.Keys - ids && entries[e.id] == e
      decreases |ids|
    {
      var id :| id in ids;
      InsertEntryOrdered(entries[id], list);
      InsertEntryMembers(entries[id], list);
      list := InsertEntry(entries[id], list);
      ids := ids - {id};
    }
  }

  /** A scope has one listing, so its index and digest depend on its entries only. */
  lemma {:induction false} ListingIsUnique(a: seq<Entry>, b: seq<Entry>)
    requires Ordered(a) && Ordered(b) && forall e :: e in a <==> e in b
    ensures a == b
  {
    if a == [] {
      SomethingIn(b);
    } else {
      var x := a[|a| - 1];
      assert x in b;
      var y := b[|b| - 1];
      assert y in a;
      assert x == y;
      var a', b' := a[..|a| - 1], b[..|b| - 1];
      assert a == a' + [x] && b == b' + [x];
      assert x !in a' && x !in b';
      forall e ensures e in a' <==> e in b' {
        assert e in a' <==> e in a && e != x;
        assert e in b' <==> e in b && e != x;
      }
      ListingIsUnique(a', b');
    }
  }

  lemma {:induction false} ApplyKeepsKeys(entries: Entries, steps: seq<Step>, setting: Setting)
    requires Keyed(entries)
    ensures ApplyAll(entries, steps, setting).Applied? ==> Keyed(ApplyAll(entries, steps, setting).entries)
  {
    if steps != [] { ApplyKeepsKeys(entries, steps[..|steps| - 1], setting); }
  }

  method ApplyOperations(entries: Entries, steps: seq<Step>, setting: Setting) returns (r: Applied)
    ensures r == ApplyAll(entries, steps, setting)
  {
    hide ApplyOne;
    r := Applied(entries, []);
    var i := 0;
    while i < |steps|
      invariant i <= |steps| && r.Applied? && r == ApplyAll(entries, steps[..i], setting)
    {
      assert steps[..i + 1][..i] == steps[..i];
      r := ApplyOne(r.entries, r.changed, steps[i], setting);
      i := i + 1;
      if !r.Applied? {
        FailureStays(entries, steps, setting, i);
        return;
      }
    }
    assert steps[..i] == steps;
  }

  lemma {:induction false} FailureStays(entries: Entries, steps: seq<Step>, setting: Setting, i: nat)
    requires i <= |steps| && !ApplyAll(entries, steps[..i], setting).Applied?
    ensures ApplyAll(entries, steps, setting) == ApplyAll(entries, steps[..i], setting)
    decreases |steps| - i
  {
    hide ApplyOne;
    if i == |steps| {
      assert steps[..i] == steps;
    } else {
      assert steps[..i + 1][..i] == steps[..i];
      FailureStays(entries, steps, setting, i + 1);
    }
  }

  /** `digest` is the listing itself: the hash is taken as injective. */
  datatype Proposal = Proposal(expected: Option<seq<Entry>>, steps: seq<Step>)

  datatype Verdict = Commit(final: seq<Entry>, changed: seq<Id>) | StaleState | InvalidBatch | ScopeOverflow | Unexpected

  /** The part of `apply` between loading the scope and writing it, under the writer lock. */
  method Judge(entries: Entries, proposal: Proposal, setting: Setting, fits: seq<Entry> -> bool) returns (v: Verdict)
    requires Keyed(entries)
    ensures v.StaleState? <==> !(proposal.expected.Some? && Lists(proposal.expected.value, entries))
    ensures !v.StaleState? ==>
      var r := ApplyAll(entries, proposal.steps, setting);
      && (v.InvalidBatch? <==> !r.Applied? && !r.Crash?)
      && (v.Unexpected? <==> r.Crash?)
      && (r.Applied? ==> (v.Commit? || v.ScopeOverflow?))
      && (v.Commit? ==> r.Applied? && Lists(v.final, r.entries) && fits(v.final) && v.changed == r.changed)
      && (v.ScopeOverflow? ==> r.Applied? && exists list :: Lists(list, r.entries) && !fits(list))
  {
    var current := SortEntries(entries);
    if proposal.expected.None? || proposal.expected.value != current {
      if proposal.expected.Some? && Lists(proposal.expected.value, entries) {
        ListingIsUnique(proposal.expected.value, current);
        assert false;
      }
      return StaleState;
    }
    var r := ApplyOperations(entries, proposal.steps, setting);
    if r.Crash? {
      return Unexpected;
    }
    if !r.Applied? {
      return InvalidBatch;
    }
    ApplyKeepsKeys(entries, proposal.steps, setting);
    var final := SortEntries(r.entries);
    if !fits(final) {
      return ScopeOverflow;
    }
    return Commit(final, r.changed);
  }

  lemma {:induction false} ListingNamesEntries(list: seq<Entry>, a: Entries, b: Entries)
    requires Keyed(a) && Keyed(b) && Lists(list, a) && Lists(list, b)
    ensures a == b
  {
    forall id ensures AsBefore(a, id) == AsBefore(b, id) {
      if id in a { assert a[id] in list; }
      if id in b { assert b[id] in list; }
    }
    assert forall id :: id in a <==> AsBefore(a, id).Some?;
    assert forall id :: id in b <==> AsBefore(b, id).Some?;
    assert a.Keys == b.Keys;
    assert forall id :: id in a ==> AsBefore(a, id).value == a[id] && AsBefore(b, id).value == b[id];
  }

  /** A committed proposal acts on exactly the entries its digest names: two scopes with one digest are
      the same scope, so once anything has changed, a proposal made before can no longer commit. */
  lemma {:induction false} StaleProposalsNeverOverwrite(before: Entries, after: Entries, proposal: Proposal)
    requires Keyed(before) && Keyed(after) && before != after
    requires proposal.expected.Some? && Lists(proposal.expected.value, before)
    ensures !Lists(proposal.expected.value, after)
  {
    if Lists(proposal.expected.value, after) {
      ListingNamesEntries(proposal.expected.value, before, after);
    }
  }
}

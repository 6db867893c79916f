/** Deleting conversations together with their artifact directories: directories are hidden behind
    tombstones, the database forgets the conversations, the tombstones are removed. The process may die
    anywhere; a cleanup at the next start, which may die as well, reconciles what is left. */
module Deletion {

  type Id = nat
  type Directory = map<string, string>

  datatype Place = Place(workspace: nat, id: Id)

  /** A hidden directory, `.deleting-<id>-<tag>`. */
  datatype Tomb = Tomb(place: Place, tag: nat)

  datatype Phase =
    | Idle
    | Down
    | Staging(todo: seq<Place>, staged: seq<Tomb>, ids: set<Id>)
    | Restoring(left: seq<Tomb>)
    | Purging(doomed: seq<Tomb>)
    | Cleaning(workspace: nat, retained: set<Id>, candidates: seq<Tomb>)

  /** `saved` remembers what each tombstone held when it was made, `used` every conversation id ever. */
  datatype State = State(
    live: map<Place, Directory>, tombs: map<Tomb, Directory>, db: set<Id>, phase: Phase,
    saved: map<Tomb, Directory>, used: set<Id>)

  datatype Action =
    | Crash
    | NewConversation(id: Id)
    | WriteArtifacts(place: Place, content: Directory)
    | BeginDelete(records: seq<Place>)
    | Stage(tag: nat)
    | Fail
    | DeleteRows
    | Restore
    | PurgeFile(name: string)
    | PurgeDirectory
    | BeginCleanup(workspace: nat, candidates: seq<Tomb>)
    | Reconcile
    | Finish

  function Ids(records: seq<Place>): set<Id> {
    set p | p in records :: p.id
  }

  ghost predicate Distinct<T>(s: seq<T>) {
    forall i, j :: 0 <= i < j < |s| ==> s[i] != s[j]
  }

  function Bring(s: State, t: Tomb): State
    requires t in s.tombs
  {
    s.(live := s.live[t.place := s.tombs[t]], tombs := s.tombs - {t})
  }

  /** One atomic step, or nothing where the phase does not allow it. `mains` are the conversations whose
      artifacts a cleanup is told to keep while the database still has them. */
  ghost function Step(s: State, a: Action, mains: set<Id>): State {
    match a
    case Crash => s.(phase := Down)
    case NewConversation(id) =>
      if s.phase.Idle? && id !in s.used then s.(db := s.db + {id}, used := s.used + {id}) else s
    case WriteArtifacts(place, content) =>
      if s.phase.Idle? && place.id in s.db then s.(live := s.live[place := content]) else s
    case BeginDelete(records) =>
      if s.phase.Idle? && Ids(records) <= s.db && Distinct(records) then s.(phase := Staging(records, [], Ids(records))) else s
    case Stage(tag) =>
      if s.phase.Staging? && s.phase.todo != [] then
        var p := s.phase.todo[0];
        var t := Tomb(p, tag);
        if p !in s.live then s.(phase := s.phase.(todo := s.phase.todo[1..]))
        else if t in s.saved then s
        else
          s.(live := s.live - {p}, tombs := s.tombs[t := s.live[p]], saved := s.saved[t := s.live[p]],
             phase := s.phase.(todo := s.phase.todo[1..], staged := s.phase.staged + [t]))
      else s
    case Fail =>
      if s.phase.Staging? then s.(phase := Restoring(s.phase.staged))
      else if s.phase.Purging? || s.phase.Restoring? || s.phase.Cleaning? then s.(phase := Idle)
      else s
    case DeleteRows =>
      if s.phase.Staging? && s.phase.todo == [] then
        s.(db := s.db - s.phase.ids, phase := Purging(s.phase.staged))
      else s
    case Restore =>
      if s.phase.Restoring? && s.phase.left != [] then
        var t := s.phase.left[|s.phase.left| - 1];
        if t in s.tombs && t.place !in s.live then Bring(s, t).(phase := Restoring(s.phase.left[..|s.phase.left| - 1]))
        else s.(phase := Idle)
      else s
    case PurgeFile(name) =>
      if s.phase.Purging? && s.phase.doomed != [] && s.phase.doomed[0] in s.tombs then
        s.(tombs := s.tombs[s.phase.doomed[0] := s.tombs[s.phase.doomed[0]] - {name}])
      else if s.phase.Cleaning? && s.phase.candidates != [] && s.phase.candidates[0] in s.tombs
              && s.phase.candidates[0].place.id !in s.phase.retained then
        s.(tombs := s.tombs[s.phase.candidates[0] := s.tombs[s.phase.candidates[0]] - {name}])
      else s
    case PurgeDirectory =>
      if s.phase.Purging? && s.phase.doomed != [] && s.phase.doomed[0] in s.tombs && s.tombs[s.phase.doomed[0]] == map[] then
        s.(tombs := s.tombs - {s.phase.doomed[0]}, phase := Purging(s.phase.doomed[1..]))
      else s
    case BeginCleanup(workspace, candidates) =>
      if (s.phase.Down? || s.phase.Idle?)
         && forall t :: t in candidates <==> t in s.tombs && t.place.workspace == workspace then
        s.(phase := Cleaning(workspace, s.db * mains, candidates))
      else s
    case Reconcile =>
      if s.phase.Cleaning? && s.phase.candidates != [] then
        var t := s.phase.candidates[0];
        var next := s.(phase := s.phase.(candidates := s.phase.candidates[1..]));
        if t !in s.tombs then next
        else if t.place.id in s.phase.retained then if t.place in s.live then next else Bring(next, t)
        else if s.tombs[t] == map[] then next.(tombs := s.tombs - {t})
        else s
      else s
    case Finish =>
      if (s.phase.Restoring? && s.phase.left == []) || (s.phase.Purging? && s.phase.doomed == [])
         || (s.phase.Cleaning? && s.phase.candidates == []) then s.(phase := Idle) else s
  }

  ghost function Run(s: State, actions: seq<Action>, mains: set<Id>): State {
    if actions == [] then s
    else Step(Run(s, actions[..|actions| - 1], mains), actions[|actions| - 1], mains)
  }

  const EMPTY := State(map[], map[], {}, Idle, map[], {})

  // ---- invariant ----

  /** A tombstone of a conversation that is still in the database and to be kept is whole. */
  ghost predicate KeptAreWhole(s: State, mains: set<Id>) {
    forall t :: t in s.tombs ==>
      t in s.saved && t.place.id in s.used && (t.place.id in s.db * mains ==> s.tombs[t] == s.saved[t])
  }

  ghost predicate PhaseInv(s: State, mains: set<Id>) {
    match s.phase
    case Staging(todo, staged, ids) =>
      && (forall t :: t in staged ==> t.place.id in ids)
      && (forall p :: p in todo ==> p.id in ids)
      && ids <= s.db
    case Purging(doomed) => forall t :: t in doomed ==> t.place.id !in s.db
    case Cleaning(_, retained, _) => retained == s.db * mains
    case _ => true
  }

  /** The place has a directory, in use or behind a tombstone. */
  ghost predicate Present(s: State, p: Place) {
    p in s.live || exists t :: t in s.tombs && t.place == p
  }

  /** What a cleanup passed over is to be kept and has a directory in use in its place. */
  ghost predicate PassedOver(s: State) {
    s.phase.Cleaning? ==>
      forall t :: t in s.tombs && t.place.workspace == s.phase.workspace && t !in s.phase.candidates ==>
        t.place.id in s.phase.retained && t.place in s.live
  }

  /** Nothing to be kept has vanished: wherever a directory of a kept conversation was ever hidden there
      is one still, and a cleanup has a directory in use in the place of every tombstone it passed over. */
  ghost predicate KeptAreThere(s: State, mains: set<Id>) {
    && (forall p :: p in s.live ==> p.id in s.used)
    && (forall t :: t in s.saved ==> t.place.id in s.used && (t.place.id in s.db * mains ==> Present(s, t.place)))
    && PassedOver(s)
  }

  ghost predicate RestInv(s: State, mains: set<Id>) {
    KeptAreWhole(s, mains) && PhaseInv(s, mains) && s.db <= s.used
  }

  ghost predicate Inv(s: State, mains: set<Id>) {
    RestInv(s, mains) && KeptAreThere(s, mains)
  }

  lemma {:induction false} StageKeeps(s: State, a: Action, mains: set<Id>)
    requires RestInv(s, mains) && (a.BeginDelete? || a.Stage? || a.DeleteRows? || a.Fail?)
    ensures RestInv(Step(s, a, mains), mains)
  {
    if a.BeginDelete? && Ids(a.records) <= s.db {
      forall p | p in a.records ensures p.id in Ids(a.records) {}
    }
  }

  lemma {:induction false} MoveKeeps(s: State, a: Action, mains: set<Id>)
    requires RestInv(s, mains) && (a.Restore? || a.PurgeFile? || a.PurgeDirectory? || a.Reconcile?)
    ensures RestInv(Step(s, a, mains), mains)
  {
  }

  lemma {:induction false} OtherKeeps(s: State, a: Action, mains: set<Id>)
    requires RestInv(s, mains)
    requires a.Crash? || a.NewConversation? || a.WriteArtifacts? || a.BeginCleanup? || a.Finish?
    ensures RestInv(Step(s, a, mains), mains)
  {
  }

  /** No step takes the last directory of a kept conversation's place. */
  lemma {:induction false} TombStays(s: State, a: Action, mains: set<Id>, t: Tomb)
    requires PhaseInv(s, mains) && t in s.tombs && t.place.id in s.db * mains
    ensures t in Step(s, a, mains).tombs || t.place in Step(s, a, mains).live
  {
    match a
    case Restore => return;
    case PurgeFile(_) => return;
    case PurgeDirectory => return;
    case Reconcile => return;
    case _ =>
  }

  lemma {:induction false} PresentStays(s: State, a: Action, mains: set<Id>, p: Place)
    requires KeptAreWhole(s, mains) && PhaseInv(s, mains)
    requires Present(s, p) && p.id in s.db * mains && p.id in Step(s, a, mains).db
    ensures Present(Step(s, a, mains), p)
  {
    var r := Step(s, a, mains);
    if p !in s.live {
      var t :| t in s.tombs && t.place == p;
      TombStays(s, a, mains, t);
    } else if p !in r.live {
      assert a.Stage? && s.phase.todo[0] == p;
      assert Tomb(p, a.tag) in r.tombs;
    }
  }

  lemma {:induction false} ReconcilePassesOver(s: State, mains: set<Id>)
    requires PassedOver(s)
    ensures PassedOver(Step(s, Reconcile, mains))
  {
    if s.phase.Cleaning? && s.phase.candidates != [] {
      var first, rest := s.phase.candidates[0], s.phase.candidates[1..];
      assert s.phase.candidates == [first] + rest;
    }
  }

  lemma {:induction false} PassedOverStay(s: State, a: Action, mains: set<Id>)
    requires PassedOver(s) && !a.Reconcile?
    ensures PassedOver(Step(s, a, mains))
  {
  }

  lemma {:induction false} IdsStayKnown(s: State, a: Action, mains: set<Id>)
    requires RestInv(s, mains)
    ensures var r := Step(s, a, mains);
            && s.used <= r.used
            && (forall id :: id in r.db && id in s.used ==> id in s.db)
            && (forall p :: p in r.live && p !in s.live ==> p.id in r.used)
  {
    match a
    case NewConversation(_) => return;
    case Restore => return;
    case Reconcile => return;
    case _ =>
  }

  lemma {:induction false} SavedIsHidden(s: State, a: Action, mains: set<Id>)
    requires forall p :: p in s.live ==> p.id in s.used
    ensures var r := Step(s, a, mains);
            forall t :: t in r.saved && t !in s.saved ==> t in r.tombs && t.place.id in s.used
  {
  }

  lemma {:induction false} ThereKeeps(s: State, a: Action, mains: set<Id>)
    requires Inv(s, mains)
    ensures KeptAreThere(Step(s, a, mains), mains)
  {
    var r := Step(s, a, mains);
    if a.Reconcile? { ReconcilePassesOver(s, mains); } else { PassedOverStay(s, a, mains); }
    IdsStayKnown(s, a, mains);
    SavedIsHidden(s, a, mains);
    hide Step, PassedOver;
    forall t | t in r.saved ensures t.place.id in r.used && (t.place.id in r.db * mains ==> Present(r, t.place)) {
      if t in s.saved && t.place.id in r.db * mains {
        PresentStays(s, a, mains, t.place);
      }
    }
  }

  lemma {:induction false} StepKeeps(s: State, a: Action, mains: set<Id>)
    requires Inv(s, mains)
    ensures Inv(Step(s, a, mains), mains)
  {
    hide Step, RestInv, KeptAreThere;
    ThereKeeps(s, a, mains);
    if a.BeginDelete? || a.Stage? || a.DeleteRows? || a.Fail? {
      StageKeeps(s, a, mains);
    } else if a.Restore? || a.PurgeFile? || a.PurgeDirectory? || a.Reconcile? {
      MoveKeeps(s, a, mains);
    } else {
      OtherKeeps(s, a, mains);
    }
  }

  lemma {:induction false} RunIsSafe(actions: seq<Action>, mains: set<Id>)
    ensures Inv(Run(EMPTY, actions, mains), mains)
  {
    hide Inv, Step;
    if actions == [] {
      StartIsSafe(mains);
    } else {
      RunIsSafe(actions[..|actions| - 1], mains);
      StepKeeps(Run(EMPTY, actions[..|actions| - 1], mains), actions[|actions| - 1], mains);
    }
  }

  /** Over every run of deletions, writes, crashes and cleanups: wherever a directory was ever hidden
      whose conversation is still in the database, and is one cleanups are told to keep, there is a
      directory, in use or behind a tombstone; and such a tombstone holds its directory whole. */
  lemma {:induction false} KeptArtifactsSurvive(actions: seq<Action>, mains: set<Id>)
    ensures var s := Run(EMPTY, actions, mains);
            && (forall t :: t in s.saved && t.place.id in s.db * mains ==>
                  t.place in s.live || exists u :: u in s.tombs && u.place == t.place)
            && (forall t :: t in s.tombs && t.place.id in s.db * mains ==> t in s.saved && s.tombs[t] == s.saved[t])
  {
    RunIsSafe(actions, mains);
    hide Run;
    var s := Run(EMPTY, actions, mains);
    forall t | t in s.saved && t.place.id in s.db * mains
      ensures t.place in s.live || exists u :: u in s.tombs && u.place == t.place
    {
      assert Present(s, t.place);
    }
  }

  /** After any run, crashed deletions and crashed cleanups included, a cleanup that has come to its end
      has put a directory in use in every place of its workspace where a kept conversation's was ever
      hidden, and has left no tombstone of a conversation that is not to be kept. */
  lemma {:induction false} FinishedCleanupRestores(actions: seq<Action>, mains: set<Id>)
    ensures var s := Run(EMPTY, actions, mains);
            s.phase.Cleaning? && s.phase.candidates == [] ==>
              && (forall t :: t in s.saved && t.place.workspace == s.phase.workspace && t.place.id in s.db * mains ==>
                    t.place in s.live)
              && (forall t :: t in s.tombs && t.place.workspace == s.phase.workspace ==>
                    t.place.id in s.db * mains && t.place in s.live)
  {
    RunIsSafe(actions, mains);
    hide Run;
    var s := Run(EMPTY, actions, mains);
    forall t | t in s.saved && t.place.id in s.db * mains ensures Present(s, t.place) {}
  }

  lemma {:induction false} StartIsSafe(mains: set<Id>)
    ensures Inv(EMPTY, mains)
  {
  }

  lemma {:induction false} RunMore(actions: seq<Action>, a: Action, mains: set<Id>)
    ensures Run(EMPTY, actions + [a], mains) == Step(Run(EMPTY, actions, mains), a, mains)
  {
    hide Step;
    assert (actions + [a])[..|actions|] == actions;
  }

  ghost function RunFrom(s: State, actions: seq<Action>, mains: set<Id>): State
    decreases |actions|
  {
    if actions == [] then s else RunFrom(Step(s, actions[0], mains), actions[1..], mains)
  }

  lemma {:induction false} RunIsRunFrom(before: seq<Action>, actions: seq<Action>, mains: set<Id>)
    ensures Run(EMPTY, before + actions, mains) == RunFrom(Run(EMPTY, before, mains), actions, mains)
    decreases |actions|
  {
    hide Step;
    if actions == [] {
      assert before + actions == before;
    } else {
      var first := actions[0];
      assert before + actions == (before + [first]) + actions[1..];
      assert (before + [first])[..|before|] == before;
      RunIsRunFrom(before + [first], actions[1..], mains);
    }
  }

  lemma {:induction false} HiddenBeforeRowsGo(id: Id, content: Directory, mains: set<Id>)
    ensures var p, t := Place(0, id), Tomb(Place(0, id), 0);
            var s := Step(Step(EMPTY, NewConversation(id), mains), WriteArtifacts(p, content), mains);
            Step(Step(s, BeginDelete([p]), mains), Stage(0), mains)
            == State(map[], map[t := content], {id}, Staging([], [t], {id}), map[t := content], {id})
  {
    var p, t := Place(0, id), Tomb(Place(0, id), 0);
    var s1 := Step(EMPTY, NewConversation(id), mains);
    assert s1 == State(map[], map[], {id}, Idle, map[], {id});
    var s2 := Step(s1, WriteArtifacts(p, content), mains);
    assert s2 == State(map[p := content], map[], {id}, Idle, map[], {id});
    assert Ids([p]) == {id} by { assert p in [p]; }
    var s3 := Step(s2, BeginDelete([p]), mains);
    assert s3 == s2.(phase := Staging([p], [], {id}));
    assert [p][1..] == [] && [] + [t] == [t] && map[p := content] - {p} == map[];
    var s4 := Step(s3, Stage(0), mains);
    assert s4.phase == Staging([], [t], {id});
    assert s4.live == map[] && s4.tombs == map[t := content] && s4.saved == map[t := content];
  }

  lemma {:induction false} SweptByCleanup(id: Id, mains: set<Id>, name: string, text: string)
    requires id !in mains
    ensures var t := Tomb(Place(0, id), 0);
            var content: Directory := map[name := text];
            var s := State(map[], map[t := content], {id}, Staging([], [t], {id}), map[t := content], {id});
            var c := Step(Step(s, Crash, mains), BeginCleanup(0, [t]), mains);
            var r := Step(Step(c, PurgeFile(name), mains), Reconcile, mains);
            id in r.db && r.live == map[] && r.tombs == map[]
  {
    var t := Tomb(Place(0, id), 0);
    var content: Directory := map[name := text];
    var s := State(map[], map[t := content], {id}, Staging([], [t], {id}), map[t := content], {id});
    var c := Step(Step(s, Crash, mains), BeginCleanup(0, [t]), mains);
    assert {id} * mains == {} && content - {name} == map[];
    assert Step(s, Crash, mains) == s.(phase := Down);
    assert c == s.(phase := Cleaning(0, {}, [t]));
    var p := Step(c, PurgeFile(name), mains);
    assert p == c.(tombs := map[t := map[]]);
    assert p.tombs - {t} == map[] && [t][1..] == [];
    assert Step(p, Reconcile, mains) == p.(phase := Cleaning(0, {}, []), tombs := map[]);
  }

  /** Some run in which the conversation had a directory has lost it, although the conversation is still
      in the database. */
  ghost predicate CanBeLost(id: Id, mains: set<Id>) {
    exists before, after, p :: LostOn(before, after, p, mains) && p.id == id
  }

  ghost predicate LostOn(before: seq<Action>, after: seq<Action>, p: Place, mains: set<Id>) {
    var s := Run(EMPTY, before + after, mains);
    p in Run(EMPTY, before, mains).live && p.id in s.db && !Present(s, p)
  }

  lemma {:induction false} KeptStayPresent(before: seq<Action>, after: seq<Action>, p: Place, mains: set<Id>)
    requires p in Run(EMPTY, before, mains).live && p.id in Run(EMPTY, before + after, mains).db && p.id in mains
    ensures p.id in Run(EMPTY, before + after, mains).used
    ensures Present(Run(EMPTY, before + after, mains), p)
    decreases |after|
  {
    if after == [] {
      assert before + after == before;
      RunIsSafe(before, mains);
    } else {
      var front, a := after[..|after| - 1], after[|after| - 1];
      var s := Run(EMPTY, before + front, mains);
      assert before + after == (before + front) + [a];
      RunMore(before + front, a, mains);
      RunIsSafe(before + front, mains);
      UsedGrows(before, front, mains);
      RunIsSafe(before, mains);
      IdsStayKnown(s, a, mains);
      hide Run, Step, RestInv, Present;
      KeptStayPresent(before, front, p, mains);
      PresentStays(s, a, mains, p);
    }
  }

  lemma {:induction false} UsedGrows(before: seq<Action>, after: seq<Action>, mains: set<Id>)
    ensures Run(EMPTY, before, mains).used <= Run(EMPTY, before + after, mains).used
    decreases |after|
  {
    if after == [] {
      assert before + after == before;
    } else {
      var front, a := after[..|after| - 1], after[|after| - 1];
      assert before + after == (before + front) + [a];
      RunMore(before + front, a, mains);
      RunIsSafe(before + front, mains);
      IdsStayKnown(Run(EMPTY, before + front, mains), a, mains);
      hide Step, Run, RestInv;
      UsedGrows(before, front, mains);
    }
  }

  /** Artifacts of a conversation that stays in the database can be lost exactly if cleanups are not told
      to keep it, as they are not of child conversations: then dying between hiding the directory and
      forgetting the row loses it. */
  lemma {:induction false} LostIffNotKept(id: Id, mains: set<Id>)
    ensures CanBeLost(id, mains) <==> id !in mains
  {
    if id in mains {
      forall before, after, p | LostOn(before, after, p, mains) ensures p.id != id {
        if p.id == id { KeptStayPresent(before, after, p, mains); }
      }
    } else {
      OthersMayBeLost(id, mains, "", "");
      assert CanBeLost(id, mains);
    }
  }

  function LosingStart(id: Id, name: string, text: string): seq<Action> {
    [NewConversation(id), WriteArtifacts(Place(0, id), map[name := text])]
  }

  function LosingEnd(id: Id, name: string): seq<Action> {
    var p, t := Place(0, id), Tomb(Place(0, id), 0);
    [BeginDelete([p]), Stage(0), Crash, BeginCleanup(0, [t]), PurgeFile(name), Reconcile]
  }

  /** The crash that loses them. */
  lemma {:induction false} OthersMayBeLost(id: Id, mains: set<Id>, name: string, text: string)
    requires id !in mains
    ensures LostOn(LosingStart(id, name, text), LosingEnd(id, name), Place(0, id), mains)
  {
    var before, after := LosingStart(id, name, text), LosingEnd(id, name);
    HiddenBeforeRowsGo(id, map[name := text], mains);
    SweptByCleanup(id, mains, name, text);
    RunIsRunFrom([], before + after, mains);
    assert [] + (before + after) == before + after;
    RunMore([], before[0], mains);
    RunMore([before[0]], before[1], mains);
    assert before == [before[0]] + [before[1]] && [] + [before[0]] == [before[0]];
    WrittenIsLive(id, map[name := text], mains);
    hide Step;
    Unfold(EMPTY, before + after, mains);
  }

  lemma {:induction false} WrittenIsLive(id: Id, content: Directory, mains: set<Id>)
    ensures Place(0, id) in Step(Step(EMPTY, NewConversation(id), mains), WriteArtifacts(Place(0, id), content), mains).live
  {
  }

  lemma {:induction false} Unfold(s: State, actions: seq<Action>, mains: set<Id>)
    requires |actions| == 8
    ensures RunFrom(s, actions, mains)
      == Step(Step(Step(Step(Step(Step(Step(Step(s, actions[0], mains), actions[1], mains), actions[2], mains),
           actions[3], mains), actions[4], mains), actions[5], mains), actions[6], mains), actions[7], mains)
  {
    hide Step;
    var s4 := Step(Step(Step(Step(s, actions[0], mains), actions[1], mains), actions[2], mains), actions[3], mains);
    FourSteps(s, actions, mains);
    FourSteps(s4, actions[4..], mains);
    assert actions[4..][4..] == [];
  }

  lemma {:induction false} OneStep(s: State, actions: seq<Action>, mains: set<Id>)
    requires actions != []
    ensures RunFrom(s, actions, mains) == RunFrom(Step(s, actions[0], mains), actions[1..], mains)
  {
  }

  lemma {:induction false} FourSteps(s: State, actions: seq<Action>, mains: set<Id>)
    requires 4 <= |actions|
    ensures RunFrom(s, actions, mains)
      == RunFrom(Step(Step(Step(Step(s, actions[0], mains), actions[1], mains), actions[2], mains), actions[3], mains),
                 actions[4..], mains)
  {
    hide Step, RunFrom;
    var s1 := Step(s, actions[0], mains);
    var s2 := Step(s1, actions[1], mains);
    OneStep(s, actions, mains);
    OneStep(s1, actions[1..], mains);
    assert actions[1..][1..] == actions[2..];
    OneStep(s2, actions[2..], mains);
    assert actions[2..][1..] == actions[3..];
    OneStep(Step(s2, actions[2], mains), actions[3..], mains);
    assert actions[3..][1..] == actions[4..];
  }

  // ---- the store ----

  function Places(staged: seq<Tomb>): set<Place> {
    set t | t in staged :: t.place
  }

  /** What the tombstones hold, if they were made from `live`. */
  function Hidden(staged: seq<Tomb>, live: map<Place, Directory>): map<Tomb, Directory> {
    map t | t in staged && t.place in live :: live[t.place]
  }

  /** Staging so far: exactly the staged directories are hidden, and nothing else has moved. */
  ghost predicate Staged(live: map<Place, Directory>, tombs: map<Tomb, Directory>, staged: seq<Tomb>,
                         live0: map<Place, Directory>, tombs0: map<Tomb, Directory>)
  {
    && (forall i, j :: 0 <= i < j < |staged| ==> staged[i].place != staged[j].place)
    && (forall t :: t in staged ==> t.place in live0 && t !in tombs0)
    && live == live0 - Places(staged)
    && tombs == tombs0 + Hidden(staged, live0)
  }

  lemma {:induction false} PlacesSnoc(staged: seq<Tomb>, t: Tomb)
    ensures Places(staged + [t]) == Places(staged) + {t.place}
    ensures (forall x :: x in staged ==> x.place != t.place) ==> t.place !in Places(staged)
  {
  }

  lemma {:induction false} HiddenSnoc(staged: seq<Tomb>, t: Tomb, live: map<Place, Directory>)
    requires t.place in live
    ensures Hidden(staged + [t], live) == Hidden(staged, live)[t := live[t.place]]
    ensures t !in staged ==> t !in Hidden(staged, live)
  {
  }

  lemma {:induction false} RemoveMore<K, V>(m: map<K, V>, keys: set<K>, k: K)
    ensures m - keys - {k} == m - (keys + {k})
    ensures k in m && k !in keys ==> (m - (keys + {k}))[k := m[k]] == m - keys
  {
  }

  lemma {:induction false} AddMore<K, V>(m: map<K, V>, n: map<K, V>, k: K, v: V)
    ensures m + n[k := v] == (m + n)[k := v]
    ensures k !in m && k !in n ==> (m + n[k := v]) - {k} == m + n
  {
  }

  lemma {:induction false} StageOneMore(live: map<Place, Directory>, tombs: map<Tomb, Directory>, staged: seq<Tomb>,
                                       live0: map<Place, Directory>, tombs0: map<Tomb, Directory>, t: Tomb)
    requires Staged(live, tombs, staged, live0, tombs0) && t.place in live && t !in tombs0
    ensures Staged(live - {t.place}, tombs[t := live[t.place]], staged + [t], live0, tombs0)
  {
    var more := staged + [t];
    PlacesSnoc(staged, t);
    HiddenSnoc(staged, t, live0);
    forall x | x in staged ensures x.place != t.place {
      assert x.place in Places(staged);
    }
    hide Places, Hidden;
    RemoveMore(live0, Places(staged), t.place);
    AddMore(tombs0, Hidden(staged, live0), t, live0[t.place]);
  }

  lemma {:induction false} RestoreLast(live: map<Place, Directory>, tombs: map<Tomb, Directory>, staged: seq<Tomb>,
                                      t: Tomb, live0: map<Place, Directory>, tombs0: map<Tomb, Directory>)
    requires Staged(live, tombs, staged + [t], live0, tombs0)
    ensures t in tombs && t.place !in live
    ensures Staged(live[t.place := tombs[t]], tombs - {t}, staged, live0, tombs0)
  {
    var all := staged + [t];
    assert all[|staged|] == t && t in all;
    forall x | x in staged ensures x.place != t.place && x in all {
      var i :| 0 <= i < |staged| && staged[i] == x;
      assert all[i] == x;
    }
    forall i, j | 0 <= i < j < |staged| ensures staged[i].place != staged[j].place {
      assert all[i] == staged[i] && all[j] == staged[j];
    }
    PlacesSnoc(staged, t);
    HiddenSnoc(staged, t, live0);
    hide Places, Hidden;
    RemoveMore(live0, Places(staged), t.place);
    AddMore(tombs0, Hidden(staged, live0), t, live0[t.place]);
  }

  lemma {:induction false} NothingStaged(live: map<Place, Directory>, tombs: map<Tomb, Directory>,
                                        live0: map<Place, Directory>, tombs0: map<Tomb, Directory>)
    ensures Staged(live, tombs, [], live0, tombs0) <==> live == live0 && tombs == tombs0
  {
    assert live0 - Places([]) == live0 && tombs0 + Hidden([], live0) == tombs0;
  }

  lemma {:induction false} FinishStep(s: State, mains: set<Id>)
    requires s.phase == Restoring([]) || s.phase == Purging([]) || (s.phase.Cleaning? && s.phase.candidates == [])
    ensures Step(s, Finish, mains) == s.(phase := Idle)
  {
  }

  lemma {:induction false} RestoreStep(s: State, left: seq<Tomb>, t: Tomb, mains: set<Id>)
    requires s.phase == Restoring(left + [t]) && t in s.tombs && t.place !in s.live
    ensures Step(s, Restore, mains) == Bring(s, t).(phase := Restoring(left))
  {
    assert (left + [t])[..|left|] == left;
  }

  /** The tombstone being removed file by file, if any. */
  ghost predicate Emptying(s: State, t: Tomb) {
    t in s.tombs &&
    ((s.phase.Purging? && s.phase.doomed != [] && s.phase.doomed[0] == t)
     || (s.phase.Cleaning? && s.phase.candidates != [] && s.phase.candidates[0] == t && t.place.id !in s.phase.retained))
  }

  lemma {:induction false} PurgeFileStep(s: State, t: Tomb, name: string, mains: set<Id>)
    requires Emptying(s, t)
    ensures Step(s, PurgeFile(name), mains) == s.(tombs := s.tombs[t := s.tombs[t] - {name}])
  {
  }

  lemma {:induction false} PurgeDirectoryStep(s: State, t: Tomb, mains: set<Id>)
    requires Emptying(s, t) && s.tombs[t] == map[]
    ensures s.phase.Purging? ==>
      Step(s, PurgeDirectory, mains) == s.(tombs := s.tombs - {t}, phase := Purging(s.phase.doomed[1..]))
    ensures s.phase.Cleaning? ==>
      Step(s, Reconcile, mains) == s.(tombs := s.tombs - {t}, phase := s.phase.(candidates := s.phase.candidates[1..]))
  {
  }

  lemma {:induction false} FailStep(s: State, mains: set<Id>)
    requires s.phase.Purging?
    ensures Step(s, Fail, mains) == s.(phase := Idle)
  {
  }

  lemma {:induction false} KeepStep(s: State, t: Tomb, mains: set<Id>)
    requires s.phase.Cleaning? && s.phase.candidates != [] && s.phase.candidates[0] == t && t in s.tombs
    requires t.place.id in s.phase.retained
    ensures var next := s.(phase := s.phase.(candidates := s.phase.candidates[1..]));
            Step(s, Reconcile, mains) == if t.place in s.live then next else Bring(next, t)
  {
  }

  function Set<T>(s: seq<T>): set<T> {
    set x | x in s
  }

  lemma {:induction false} SetSnoc<T>(s: seq<T>, x: T)
    ensures Set(s + [x]) == Set(s) + {x}
  {
  }

  /** From the `i`-th on the tombstones to be made have not been made before. */
  ghost predicate AllUnused(records: seq<Place>, tags: seq<nat>, i: nat, saved: map<Tomb, Directory>)
    requires |tags| == |records|
  {
    forall j :: i <= j < |records| ==> Tomb(records[j], tags[j]) !in saved
  }

  lemma {:induction false} OthersUnused(records: seq<Place>, tags: seq<nat>, i: nat, saved: map<Tomb, Directory>,
                                        after: map<Tomb, Directory>)
    requires |tags| == |records| && i < |records| && Distinct(records) && AllUnused(records, tags, i, saved)
    requires forall t :: t in after ==> t in saved || t == Tomb(records[i], tags[i])
    ensures AllUnused(records, tags, i + 1, after)
  {
  }

  lemma {:induction false} OneMoreHidden(records: seq<Place>, i: nat, live0: map<Place, Directory>)
    requires i < |records|
    ensures records[i..] == [records[i]] + records[i + 1..]
    ensures live0 - Set(records[..i + 1]) == live0 - Set(records[..i]) - {records[i]}
  {
    assert records[..i + 1] == records[..i] + [records[i]];
    SetSnoc(records[..i], records[i]);
    RemoveMore(live0, Set(records[..i]), records[i]);
  }

  lemma {:induction false} BeginDeleteStep(s: State, records: seq<Place>, mains: set<Id>)
    requires s.phase.Idle? && Ids(records) <= s.db && Distinct(records)
    ensures Step(s, BeginDelete(records), mains) == s.(phase := Staging(records, [], Ids(records)))
  {
  }

  lemma {:induction false} StagingSteps(s: State, mains: set<Id>)
    requires s.phase.Staging?
    ensures Step(s, Fail, mains) == s.(phase := Restoring(s.phase.staged))
    ensures s.phase.todo == [] ==>
      Step(s, DeleteRows, mains) == s.(db := s.db - s.phase.ids, phase := Purging(s.phase.staged))
  {
  }

  /** What staging added to the tombstones is exactly what was staged. */
  lemma {:induction false} StagedTombs(live: map<Place, Directory>, tombs: map<Tomb, Directory>, staged: seq<Tomb>,
                                       live0: map<Place, Directory>, tombs0: map<Tomb, Directory>)
    requires Staged(live, tombs, staged, live0, tombs0)
    ensures Distinct(staged) && (forall t :: t in staged ==> t in tombs)
    ensures tombs - Set(staged) == tombs0
    ensures forall part :: part <= staged ==>
      forall t :: t in tombs0 ==> t in tombs - Set(part) && (tombs - Set(part))[t] == tombs0[t]
  {
    assert forall t :: t in staged ==> t in Hidden(staged, live0);
    assert tombs - Set(staged) == tombs0;
    forall part | part <= staged
      ensures forall t :: t in tombs0 ==> t in tombs - Set(part) && (tombs - Set(part))[t] == tombs0[t]
    {
      assert forall t :: t in part ==> t in staged;
    }
  }

  // ---- what a cleanup leaves ----

  /** After the tombstones in `handled`: every kept one has its directory in place, whole if it was brought
      back; every other one is gone; nothing else has changed. */
  ghost predicate Swept(live: map<Place, Directory>, tombs: map<Tomb, Directory>, live0: map<Place, Directory>,
                        tombs0: map<Tomb, Directory>, saved: map<Tomb, Directory>, handled: seq<Tomb>, retained: set<Id>)
  {
    && (forall t :: t in handled ==> if t.place.id in retained then t.place in live else t !in tombs)
    && (forall t :: t in tombs ==> t in tombs0 && tombs[t] == tombs0[t])
    && (forall t :: t in tombs0 && t !in handled ==> t in tombs)
    && (forall p :: p in live0 ==> p in live && live[p] == live0[p])
    && (forall p :: p in live && p !in live0 ==>
          exists t :: t in handled && t in tombs0 && t.place == p && t in saved && live[p] == tombs0[t] == saved[t])
    && (forall t :: t in tombs0 && t.place.id in retained ==> t in saved && tombs0[t] == saved[t])
  }

  lemma {:induction false} NothingSwept(live: map<Place, Directory>, tombs: map<Tomb, Directory>,
                                        saved: map<Tomb, Directory>, retained: set<Id>)
    requires forall t :: t in tombs && t.place.id in retained ==> t in saved && tombs[t] == saved[t]
    ensures Swept(live, tombs, live, tombs, saved, [], retained)
  {
  }

  lemma {:induction false} WholeWhereKept(s: State, mains: set<Id>)
    requires Inv(s, mains)
    ensures forall t :: t in s.tombs && t.place.id in s.db * mains ==> t in s.saved && s.tombs[t] == s.saved[t]
  {
  }

  lemma {:induction false} BeginCleanupStep(s: State, workspace: nat, candidates: seq<Tomb>, mains: set<Id>)
    requires s.phase.Down? || s.phase.Idle?
    requires forall t :: t in candidates <==> t in s.tombs && t.place.workspace == workspace
    ensures Step(s, BeginCleanup(workspace, candidates), mains)
            == s.(phase := Cleaning(workspace, s.db * mains, candidates))
  {
  }

  lemma {:induction false} StillThere(live: map<Place, Directory>, tombs: map<Tomb, Directory>, live0: map<Place, Directory>,
                                      tombs0: map<Tomb, Directory>, saved: map<Tomb, Directory>, candidates: seq<Tomb>,
                                      i: nat, retained: set<Id>)
    requires i < |candidates| && Distinct(candidates) && candidates[i] in tombs0
    requires Swept(live, tombs, live0, tombs0, saved, candidates[..i], retained)
    ensures candidates[i] in tombs
  {
    assert candidates[i] !in candidates[..i];
  }

  lemma {:induction false} SweepOne(live: map<Place, Directory>, tombs: map<Tomb, Directory>, live0: map<Place, Directory>,
                                    tombs0: map<Tomb, Directory>, saved: map<Tomb, Directory>, handled: seq<Tomb>,
                                    t: Tomb, retained: set<Id>)
    requires Swept(live, tombs, live0, tombs0, saved, handled, retained) && t in tombs
    ensures
      var live' := if t.place.id in retained && t.place !in live then live[t.place := tombs[t]] else live;
      var tombs' := if t.place.id in retained && t.place in live then tombs else tombs - {t};
      Swept(live', tombs', live0, tombs0, saved, handled + [t], retained)
  {
    var live' := if t.place.id in retained && t.place !in live then live[t.place := tombs[t]] else live;
    var tombs' := if t.place.id in retained && t.place in live then tombs else tombs - {t};
    var more := handled + [t];
    assert forall x :: x in more <==> x in handled || x == t;
    forall p | p in live' && p !in live0
      ensures exists x :: x in more && x in tombs0 && x.place == p && x in saved && live'[p] == tombs0[x] == saved[x]
    {
      if p in live {
        var x :| x in handled && x in tombs0 && x.place == p && x in saved && live[p] == tombs0[x] == saved[x];
        assert x in more;
      } else {
        assert p == t.place && t in more;
      }
    }
  }

  datatype Result = Deleted(cleaned: bool) | Refused

  /** Artifact directories of all workspaces and the rows of the database, with every step ever taken. */
  class ArtifactStore {
    const mains: set<Id>
    var live: map<Place, Directory>
    var tombs: map<Tomb, Directory>
    var db: set<Id>
    ghost var done: seq<Action>

    ghost function Now(): State
      reads this
    {
      Run(EMPTY, done, mains)
    }

    ghost predicate Valid()
      reads this
    {
      Now().live == live && Now().tombs == tombs && Now().db == db
    }

    constructor (mains: set<Id>)
      ensures Valid() && Now() == EMPTY && this.mains == mains
    {
      this.mains := mains;
      live, tombs, db, done := map[], map[], {}, [];
    }

    lemma TombsAreSaved()
      requires Valid()
      ensures forall t :: t in tombs ==> t in Now().saved
    {
      NowIsSafe();
    }

    lemma NowIsSafe()
      requires Valid()
      ensures Inv(Now(), mains)
    {
      RunIsSafe(done, mains);
    }

    method Advance(live': map<Place, Directory>, tombs': map<Tomb, Directory>, db': set<Id>, ghost a: Action)
      requires Valid()
      requires var s := Step(Now(), a, mains); s.live == live' && s.tombs == tombs' && s.db == db'
      modifies this
      ensures Valid() && live == live' && tombs == tombs' && db == db' && done == old(done) + [a]
      ensures Now() == Step(old(Now()), a, mains)
    {
      hide Step, Run;
      RunMore(done, a, mains);
      live, tombs, db := live', tombs', db';
      done := done + [a];
    }

    /** Renames one conversation's directory to a tombstone, if there is a directory. */
    method StageConversationDeletion(place: Place, tag: nat) returns (staged: seq<Tomb>)
      requires Valid() && Now().phase.Staging? && Now().phase.todo != [] && Now().phase.todo[0] == place
      requires Tomb(place, tag) !in Now().saved
      modifies this
      ensures Valid() && old(done) <= done && db == old(db)
      ensures staged == if place in old(live) then [Tomb(place, tag)] else []
      ensures live == old(live) - {place}
      ensures tombs == if place in old(live) then old(tombs)[Tomb(place, tag) := old(live)[place]] else old(tombs)
      ensures var before := old(Now()).phase;
              Now().phase == before.(todo := before.todo[1..], staged := before.staged + staged)
      ensures forall t :: t in Now().saved ==> t in old(Now()).saved || t == Tomb(place, tag)
    {
      hide Run;
      if place !in live {
        assert live - {place} == live;
        Advance(live, tombs, db, Stage(tag));
        return [];
      }
      Advance(live - {place}, tombs[Tomb(place, tag) := live[place]], db, Stage(tag));
      return [Tomb(place, tag)];
    }

    method RestoreOne(left: seq<Tomb>, t: Tomb)
      requires Valid() && Now().phase == Restoring(left + [t]) && t in tombs && t.place !in live
      modifies this
      ensures Valid() && old(done) <= done && db == old(db) && Now().phase == Restoring(left)
      ensures live == old(live)[t.place := old(tombs)[t]] && tombs == old(tombs) - {t}
    {
      hide Run, Step;
      RestoreStep(Now(), left, t, mains);
      Advance(live[t.place := tombs[t]], tombs - {t}, db, Restore);
    }

    /** Undoes staging, last directory first. */
    method RestoreStaged(staged: seq<Tomb>, ghost live0: map<Place, Directory>, ghost tombs0: map<Tomb, Directory>)
      requires Valid() && Now().phase == Restoring(staged)
      requires Staged(live, tombs, staged, live0, tombs0)
      modifies this
      ensures Valid() && old(done) <= done && db == old(db)
      ensures live == live0 && tombs == tombs0 && Now().phase.Idle?
    {
      hide Run, Staged, Step;
      var left := staged;
      while left != []
        invariant Valid() && old(done) <= done && db == old(db)
        invariant Now().phase == Restoring(left) && Staged(live, tombs, left, live0, tombs0)
        decreases |left|
      {
        var front, t := left[..|left| - 1], left[|left| - 1];
        assert left == front + [t];
        RestoreLast(live, tombs, front, t, live0, tombs0);
        RestoreOne(front, t);
        left := front;
      }
      NothingStaged(live, tombs, live0, tombs0);
      FinishStep(Now(), mains);
      Advance(live, tombs, db, Finish);
    }

    /** Removes the files of a tombstone, in whatever order the file system lists them. */
    method EmptyOut(t: Tomb)
      requires Valid() && Emptying(Now(), t)
      modifies this
      ensures Valid() && old(done) <= done && db == old(db) && live == old(live)
      ensures tombs == old(tombs)[t := map[]]
      ensures Now() == old(Now()).(tombs := tombs)
    {
      hide Step, Run;
      ghost var before := Now();
      assert tombs == tombs[t := tombs[t]];
      while tombs[t].Keys != {}
        invariant Valid() && old(done) <= done && t in tombs
        invariant tombs == old(tombs)[t := tombs[t]] && Now() == before.(tombs := tombs)
        decreases |tombs[t]|
      {
        var name :| name in tombs[t].Keys;
        PurgeFileStep(Now(), t, name, mains);
        ghost var files := tombs[t];
        Advance(live, tombs[t := tombs[t] - {name}], db, PurgeFile(name));
        assert tombs[t].Keys == files.Keys - {name};
      }
      assert tombs[t] == map[];
    }

    /** Removes the tombstones one after the other, up to the first that cannot be removed. */
    method PurgeStaged(staged: seq<Tomb>, failAt: nat) returns (cleaned: bool)
      requires Valid() && Now().phase == Purging(staged) && Distinct(staged)
      requires forall t :: t in staged ==> t in tombs
      modifies this
      ensures Valid() && old(done) <= done && db == old(db) && live == old(live) && Now().phase.Idle?
      ensures cleaned <==> |staged| <= failAt
      ensures tombs == old(tombs) - Set(staged[..if cleaned then |staged| else failAt])
    {
      hide Step, Run;
      var i := 0;
      assert staged[0..] == staged && old(tombs) - Set(staged[..0]) == old(tombs);
      while i < |staged| && i != failAt
        invariant i <= |staged| && i <= failAt && Valid() && old(done) <= done && db == old(db) && live == old(live)
        invariant Now().phase == Purging(staged[i..])
        invariant tombs == old(tombs) - Set(staged[..i])
      {
        var t := staged[i];
        assert t in staged && t !in Set(staged[..i]);
        EmptyOut(t);
        PurgeDirectoryStep(Now(), t, mains);
        assert staged[i..][1..] == staged[i + 1..];
        assert Set(staged[..i + 1]) == Set(staged[..i]) + {t};
        Advance(live, tombs - {t}, db, PurgeDirectory);
        i := i + 1;
      }
      if i < |staged| {
        FailStep(Now(), mains);
        Advance(live, tombs, db, Fail);
        return false;
      }
      assert staged[i..] == [];
      FinishStep(Now(), mains);
      Advance(live, tombs, db, Finish);
      return true;
    }

    /** One candidate: back if it is to be kept and its place is free, gone if it is not to be kept. */
    method ReconcileOne(t: Tomb, rest: seq<Tomb>)
      requires Valid() && Now().phase.Cleaning? && Now().phase.candidates == [t] + rest && t in tombs
      modifies this
      ensures Valid() && old(done) <= done && db == old(db) && Now().saved == old(Now()).saved
      ensures Now().phase == old(Now()).phase.(candidates := rest)
      ensures live == if t.place.id in old(Now()).phase.retained && t.place !in old(live)
                      then old(live)[t.place := old(tombs)[t]] else old(live)
      ensures tombs == if t.place.id in old(Now()).phase.retained && t.place in old(live)
                       then old(tombs) else old(tombs) - {t}
    {
      hide Step, Run;
      assert ([t] + rest)[1..] == rest;
      if t.place.id in db && t.place.id in mains {
        CleaningRetains();
        KeepStep(Now(), t, mains);
        if t.place in live {
          Advance(live, tombs, db, Reconcile);
        } else {
          Advance(live[t.place := tombs[t]], tombs - {t}, db, Reconcile);
        }
      } else {
        CleaningRetains();
        EmptyOut(t);
        PurgeDirectoryStep(Now(), t, mains);
        Advance(live, tombs - {t}, db, Reconcile);
      }
    }

    lemma CleaningRetains()
      requires Valid() && Now().phase.Cleaning?
      ensures Now().phase.retained == db * mains
    {
      NowIsSafe();
    }

    /** At start: brings back what the database still has and cleanups are to keep, removes the rest. */
    method CleanupStaleTombstones(workspace: nat, candidates: seq<Tomb>)
      requires Valid() && (Now().phase.Down? || Now().phase.Idle?)
      requires Distinct(candidates)
      requires forall t :: t in candidates <==> t in tombs && t.place.workspace == workspace
      modifies this
      ensures Valid() && old(done) <= done && db == old(db) && Now().phase.Idle?
      ensures Swept(live, tombs, old(live), old(tombs), old(Now()).saved, candidates, db * mains)
      ensures forall t :: t in Now().saved && t.place.workspace == workspace && t.place.id in db * mains ==> t.place in live
    {
      NowIsSafe();
      ghost var live0, tombs0, saved0, retained := live, tombs, Now().saved, db * mains;
      NothingSwept(live, tombs, saved0, retained);
      WholeWhereKept(Now(), mains);
      BeginCleanupStep(Now(), workspace, candidates, mains);
      hide Run, Step, Swept, Inv;
      Advance(live, tombs, db, BeginCleanup(workspace, candidates));
      var i := 0;
      assert candidates[0..] == candidates && candidates[..0] == [];
      while i < |candidates|
        invariant i <= |candidates| && Valid() && old(done) <= done && db == old(db)
        invariant Now().phase == Cleaning(workspace, retained, candidates[i..]) && Now().saved == saved0
        invariant Swept(live, tombs, live0, tombs0, saved0, candidates[..i], retained)
      {
        var t, rest := candidates[i], candidates[i + 1..];
        assert candidates[i..] == [t] + rest;
        assert candidates[..i + 1] == candidates[..i] + [t];
        StillThere(live, tombs, live0, tombs0, saved0, candidates, i, retained);
        SweepOne(live, tombs, live0, tombs0, saved0, candidates[..i], t, retained);
        ReconcileOne(t, rest);
        i := i + 1;
      }
      assert candidates[i..] == [] && candidates[..i] == candidates;
      FinishedCleanupRestores(done, mains);
      FinishStep(Now(), mains);
      Advance(live, tombs, db, Finish);
    }

    method StageNext(place: Place, tag: nat, ghost rest: seq<Place>, staged: seq<Tomb>, ghost ids: set<Id>,
                     ghost live0: map<Place, Directory>, ghost tombs0: map<Tomb, Directory>) returns (staged': seq<Tomb>)
      requires Valid() && Now().phase == Staging([place] + rest, staged, ids)
      requires Staged(live, tombs, staged, live0, tombs0)
      requires Tomb(place, tag) !in Now().saved && Tomb(place, tag) !in tombs0
      modifies this
      ensures Valid() && old(done) <= done && db == old(db)
      ensures Staged(live, tombs, staged', live0, tombs0)
      ensures Now().phase == Staging(rest, staged', ids)
      ensures live == old(live) - {place}
      ensures forall t :: t in Now().saved ==> t in old(Now()).saved || t == Tomb(place, tag)
    {
      hide Run, Step, Staged;
      assert ([place] + rest)[1..] == rest;
      if place in live {
        StageOneMore(live, tombs, staged, live0, tombs0, Tomb(place, tag));
      } else {
        assert live - {place} == live;
        assert staged + [] == staged;
      }
      var more := StageConversationDeletion(place, tag);
      staged' := staged + more;
    }

    /** Hides the directories of a whole subtree, one conversation after the other, up to the first that
        cannot be hidden. */
    method StageAll(records: seq<Place>, tags: seq<nat>, failAt: nat, ghost live0: map<Place, Directory>,
                    ghost tombs0: map<Tomb, Directory>) returns (staged: seq<Tomb>)
      requires Valid() && Now().phase == Staging(records, [], Ids(records)) && live == live0 && tombs == tombs0
      requires |tags| == |records| && Distinct(records)
      requires forall i :: 0 <= i < |records| ==> Tomb(records[i], tags[i]) !in Now().saved
      modifies this
      ensures Valid() && old(done) <= done && db == old(db)
      ensures Staged(live, tombs, staged, live0, tombs0)
      ensures Now().phase == Staging(if failAt < |records| then records[failAt..] else [], staged, Ids(records))
      ensures |records| <= failAt ==> live == live0 - Set(records)
    {
      TombsAreSaved();
      NothingStaged(live, tombs, live0, tombs0);
      assert records[0..] == records && live0 - Set(records[..0]) == live0;
      assert AllUnused(records, tags, 0, Now().saved);
      hide Run, Step, Staged, Ids, Set, Distinct;
      ghost var ids := Ids(records);
      staged := [];
      var i := 0;
      while i < |records| && i != failAt
        invariant i <= |records| && i <= failAt && Valid() && old(done) <= done && db == old(db)
        invariant Now().phase == Staging(records[i..], staged, ids)
        invariant Staged(live, tombs, staged, live0, tombs0) && live == live0 - Set(records[..i])
        invariant AllUnused(records, tags, i, Now().saved)
      {
        var place, rest := records[i], records[i + 1..];
        OneMoreHidden(records, i, live0);
        ghost var saved := Now().saved;
        staged := StageNext(place, tags[i], rest, staged, ids, live0, tombs0);
        OthersUnused(records, tags, i, saved, Now().saved);
        i := i + 1;
      }
      if i == |records| {
        assert records[..i] == records && records[i..] == [];
        return;
      }
    }

    /** All directories are hidden: the rows go, then the tombstones as far as they can. */
    method DeleteStaged(records: seq<Place>, staged: seq<Tomb>, failAt: nat, ghost live0: map<Place, Directory>,
                        ghost tombs0: map<Tomb, Directory>) returns (r: Result)
      requires Valid() && Now().phase == Staging([], staged, Ids(records)) && Staged(live, tombs, staged, live0, tombs0)
      modifies this
      ensures Valid() && old(done) <= done && Now().phase.Idle?
      ensures r.Deleted? && db == old(db) - Ids(records) && live == old(live)
      ensures r.cleaned ==> tombs == tombs0
      ensures forall t :: t in tombs0 ==> t in tombs && tombs[t] == tombs0[t]
    {
      StagingSteps(Now(), mains);
      StagedTombs(live, tombs, staged, live0, tombs0);
      hide Run, Step, Staged, Ids;
      Advance(live, tombs, db - Ids(records), DeleteRows);
      var cleaned := PurgeStaged(staged, failAt);
      return Deleted(cleaned);
    }

    /** Deletes a conversation and everything below it. Where hiding a directory or deleting the rows
        fails, nothing has changed. */
    method DeleteConversation(records: seq<Place>, tags: seq<nat>, failAt: nat, rowsFail: bool, purgeFailAt: nat)
        returns (r: Result)
      requires Valid() && Now().phase.Idle? && Ids(records) <= db && Distinct(records) && |tags| == |records|
      requires forall i :: 0 <= i < |records| ==> Tomb(records[i], tags[i]) !in Now().saved
      modifies this
      ensures Valid() && old(done) <= done && Now().phase.Idle?
      ensures r.Refused? <==> failAt < |records| || rowsFail
      ensures r.Refused? ==> live == old(live) && tombs == old(tombs) && db == old(db)
      ensures r.Deleted? ==>
        && db == old(db) - Ids(records) && live == old(live) - Set(records)
        && (r.cleaned ==> tombs == old(tombs))
        && (forall t :: t in old(tombs) ==> t in tombs && tombs[t] == old(tombs)[t])
    {
      ghost var live0, tombs0 := live, tombs;
      BeginDeleteStep(Now(), records, mains);
      hide Run, Step, Staged;
      Advance(live, tombs, db, BeginDelete(records));
      var staged := StageAll(records, tags, failAt, live0, tombs0);
      if failAt < |records| || rowsFail {
        StagingSteps(Now(), mains);
        Advance(live, tombs, db, Fail);
        RestoreStaged(staged, live0, tombs0);
        return Refused;
      }
      r := DeleteStaged(records, staged, purgeFailAt, live0, tombs0);
    }
  }
}

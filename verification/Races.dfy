/** Uploads and deletions whose storage and database calls interleave. */
module Races {
  import opened Messages
  import opened Tables
  import opened LogStore
  import opened Agreement
  import opened Downloads
  import opened Groups

  // No lock spans the calls of one request, and cleaning runs beside the handlers. An upload stores its
  // file, then looks its row or its group up, then inserts; a deletion removes the file, then the rows.
  // Each of these is one step here, and any other step may come in between.

  /** What a call under way has still to do. `cut`: its file was removed since it was stored. */
  datatype Call =
    | Stored(id: string, u: Upload, groupId: Option<string>, cut: bool)
    | Looked(id: string, u: Upload, groupId: Option<string>, group: Option<(nat, nat)>, cut: bool)
    | Removed(id: string)

  datatype State = State(store: Store, calls: map<nat, Call>)

  datatype Step =
    | Save(p: nat, u: Upload, groupId: Option<string>, saving: Saving)
    | Look(p: nat)
    | Insert(p: nat, now: int)
    | Remove(p: nat, id: string)
    | Forget(p: nat)
    | Fail(p: nat)

  /** Uploads of a removed file are cut. */
  function CutOff(calls: map<nat, Call>, id: string): map<nat, Call> {
    map p | p in calls :: if !calls[p].Removed? && calls[p].id == id then calls[p].(cut := true) else calls[p]
  }

  function DoSave(v: Service, s: State, p: nat, u: Upload, groupId: Option<string>, saving: Saving): State {
    var (files, ok) := SaveLog(s.store.files, v.Id(u.bytes), u.bytes, saving);
    State(s.store.(files := files), if ok then s.calls[p := Stored(v.Id(u.bytes), u, groupId, false)] else s.calls)
  }

  /** FindLogByFileId ends the upload when there is a row; FindLogGroup reads the group's size. */
  function DoLook(s: State, p: nat): State
    requires p in s.calls && s.calls[p].Stored?
  {
    var c := s.calls[p];
    match c.groupId
    case None =>
      if Find(s.store.rows, c.id).Some? then s.(calls := s.calls - {p})
      else s.(calls := s.calls[p := Looked(c.id, c.u, None, None, c.cut)])
    case Some(groupId) =>
      var g := FindGroup(s.store.groups, groupId);
      s.(calls := s.calls[p := Looked(c.id, c.u, c.groupId, if g.Some? then Some((g.value, s.store.groups[g.value].size)) else None, c.cut)])
  }

  /** A new row; a new group, or the size read before plus this upload's. A group deleted since is left alone. */
  function Inserted(s: Store, c: Call, now: int): Store
    requires c.Looked?
  {
    if c.groupId.None? then s.(rows := s.rows + [LogRow(s, c.id, c.u, now, None)])
    else match c.group
      case None =>
        s.(rows := s.rows + [LogRow(s, c.id, c.u, now, Some(|s.groups|))], groups := s.groups + [LogGroup(c.groupId.value, c.u.size, true)])
      case Some((g, size)) =>
        if g >= |s.groups| then s
        else s.(rows := s.rows + [LogRow(s, c.id, c.u, now, Some(g))],
                groups := if s.groups[g].live then s.groups[g := s.groups[g].(size := size + c.u.size)] else s.groups)
  }

  function Apply(v: Service, s: State, e: Step): State {
    match e
    case Save(p, u, groupId, saving) => if p in s.calls then s else DoSave(v, s, p, u, groupId, saving)
    case Look(p) => if p in s.calls && s.calls[p].Stored? then DoLook(s, p) else s
    case Insert(p, now) =>
      if p in s.calls && s.calls[p].Looked? then State(Inserted(s.store, s.calls[p], now), s.calls - {p}) else s
    case Remove(p, id) =>
      if p in s.calls || id == "" then s
      else State(s.store.(files := s.store.files - {id}), CutOff(s.calls, id)[p := Removed(id)])
    case Forget(p) =>
      if p in s.calls && s.calls[p].Removed?
      then State(s.store.(rows := Tables.Forget(s.store.rows, s.calls[p].id)), s.calls - {p}) else s
    case Fail(p) => s.(calls := s.calls - {p})
  }

  function Run(v: Service, steps: seq<Step>): State
    decreases |steps|
  {
    if steps == [] then State(EMPTY, map[]) else Apply(v, Run(v, steps[..|steps| - 1]), steps[|steps| - 1])
  }

  // ---- every run ----

  /** Rows and calls name what there is. */
  ghost predicate Sound(s: State) {
    && Sane(s.store)
    && forall p :: p in s.calls ==>
         && s.calls[p].id != ""
         && (s.calls[p].Looked? && s.calls[p].groupId.None? ==> s.calls[p].group.None?)
         && (s.calls[p].Looked? && s.calls[p].group.Some? ==> s.calls[p].group.value.0 < |s.store.groups|)
  }

  lemma StepSound(v: Service, s: State, e: Step)
    requires Sound(s)
    ensures Sound(Apply(v, s, e))
  {
    match e
    case Insert(p, now) =>
      if p in s.calls && s.calls[p].Looked? { InsertSound(v, s, p, now); }
    case Forget(p) =>
      if p in s.calls && s.calls[p].Removed? { SaneDelete(s.store, s.calls[p].id, Done); }
    case _ =>
  }

  lemma InsertSound(v: Service, s: State, p: nat, now: int)
    requires Sound(s) && p in s.calls && s.calls[p].Looked?
    ensures Sound(Apply(v, s, Insert(p, now)))
  {
    var s' := Apply(v, s, Insert(p, now));
    var x := s'.store.rows[|s.store.rows|];
    assert s'.store.rows == s.store.rows + [x] && |s'.store.groups| >= |s.store.groups|;
    assert forall y :: y in s'.store.rows <==> y in s.store.rows || y == x;
  }

  lemma {:induction false} RunSound(v: Service, steps: seq<Step>)
    ensures Sound(Run(v, steps))
    decreases |steps|
  {
    if steps == [] {
    } else {
      RunSound(v, steps[..|steps| - 1]);
      StepSound(v, Run(v, steps[..|steps| - 1]), steps[|steps| - 1]);
    }
  }

  /** `P` holds before, between and after all steps. */
  ghost predicate Throughout(v: Service, steps: seq<Step>, P: State -> bool) {
    forall k :: 0 <= k <= |steps| ==> P(Run(v, steps[..k]))
  }

  /** No step of the run is such a step. */
  ghost predicate Never(v: Service, steps: seq<Step>, B: (State, Step) -> bool) {
    forall k :: 0 <= k < |steps| ==> !B(Run(v, steps[..k]), steps[k])
  }

  lemma ThroughoutInit(v: Service, steps: seq<Step>, P: State -> bool)
    requires steps != []
    ensures Throughout(v, steps, P) <==> Throughout(v, steps[..|steps| - 1], P) && P(Run(v, steps))
  {
    hide Run;
    var init := steps[..|steps| - 1];
    assert steps[..|steps|] == steps;
    forall k | 0 <= k <= |init| ensures init[..k] == steps[..k] { }
    if Throughout(v, init, P) && P(Run(v, steps)) {
      forall k | 0 <= k <= |steps| ensures P(Run(v, steps[..k])) { assert k <= |init| ==> P(Run(v, init[..k])); }
    }
    if Throughout(v, steps, P) {
      forall k | 0 <= k <= |init| ensures P(Run(v, init[..k])) { assert P(Run(v, steps[..k])); }
    }
  }

  lemma NeverInit(v: Service, steps: seq<Step>, B: (State, Step) -> bool)
    requires steps != []
    ensures var n := |steps| - 1;
            Never(v, steps, B) <==> Never(v, steps[..n], B) && !B(Run(v, steps[..n]), steps[n])
  {
    hide Run;
    var init := steps[..|steps| - 1];
    forall k | 0 <= k < |init| ensures init[..k] == steps[..k] && init[k] == steps[k] { }
    if Never(v, init, B) && !B(Run(v, init), steps[|init|]) {
      forall k | 0 <= k < |steps| ensures !B(Run(v, steps[..k]), steps[k]) {
        if k < |init| { assert !B(Run(v, init[..k]), init[k]); }
      }
    }
    if Never(v, steps, B) {
      forall k | 0 <= k < |init| ensures !B(Run(v, init[..k]), init[k]) { assert !B(Run(v, steps[..k]), steps[k]); }
    }
  }

  /** When only the steps of `B` break `P`, it holds throughout exactly the runs without such a step. */
  lemma {:induction false} ThroughoutIff(v: Service, steps: seq<Step>, P: State -> bool, B: (State, Step) -> bool)
    requires P(State(EMPTY, map[])) && forall s, e :: Sound(s) && P(s) ==> (P(Apply(v, s, e)) <==> !B(s, e))
    ensures Throughout(v, steps, P) <==> Never(v, steps, B)
    ensures Throughout(v, steps, P) ==> P(Run(v, steps))
    decreases |steps|
  {
    if steps == [] {
      assert steps[..0] == steps;
    } else {
      var init, e := steps[..|steps| - 1], steps[|steps| - 1];
      assert Run(v, steps) == Apply(v, Run(v, init), e);
      RunSound(v, init);
      ThroughoutInit(v, steps, P);
      NeverInit(v, steps, B);
      hide Throughout, Never, Run, Apply, Sound;
      ThroughoutIff(v, init, P, B);
    }
  }

  // ---- uninterrupted calls ----

  /** An upload whose three steps follow one another is one CreateFile. */
  lemma UploadSteps(v: Service, s: State, p: nat, u: Upload, now: int)
    requires p !in s.calls
    ensures var s3 := Apply(v, Apply(v, Apply(v, s, Save(p, u, None, Written)), Look(p)), Insert(p, now));
            s3 == s.(store := CreateFile(s.store, v.Id(u.bytes), u, now, NO_FAULTS).0)
  {
    var s1 := Apply(v, s, Save(p, u, None, Written));
    assert s1.calls - {p} == s.calls;
    var s2 := Apply(v, s1, Look(p));
    assert s2.calls - {p} == s.calls;
  }

  /** The same for an upload into a group. */
  lemma GroupUploadSteps(v: Service, s: State, p: nat, groupId: string, u: Upload, now: int)
    requires p !in s.calls
    ensures var s3 := Apply(v, Apply(v, Apply(v, s, Save(p, u, Some(groupId), Written)), Look(p)), Insert(p, now));
            s3 == s.(store := CreateGroupFile(s.store, v.Id(u.bytes), groupId, u, now, NO_FAULTS).0)
  {
    var s1 := Apply(v, s, Save(p, u, Some(groupId), Written));
    var s2 := Apply(v, s1, Look(p));
    assert s2.calls - {p} == s.calls;
  }

  /** A deletion whose two steps follow one another is one DeleteFile, but for the mark on uploads it cuts. */
  lemma DeletionSteps(v: Service, s: State, p: nat, id: string)
    requires p !in s.calls && id != ""
    ensures var s2 := Apply(v, Apply(v, s, Remove(p, id)), Forget(p));
            s2.store == DeleteFile(s.store, id, Done).0 && s2.calls == CutOff(s.calls, id)
  {
    assert CutOff(s.calls, id)[p := Removed(id)] - {p} == CutOff(s.calls, id);
  }

  // ---- rows without their file ----

  /** A deletion of the file is between its two steps. */
  ghost predicate Going(s: State, id: string) {
    exists p :: p in s.calls && s.calls[p] == Removed(id)
  }

  /** No live row lacks its file, unless its deletion is under way. */
  ghost predicate NoneBare(s: State) {
    forall x :: x in s.store.rows && x.live ==> x.fileId in s.store.files || Going(s, x.fileId)
  }

  /** The step inserts a row for a file that is not stored, or gives a deletion up when only the file is gone. */
  ghost predicate Bares(s: State, e: Step) {
    match e
    case Insert(p, _) =>
      && p in s.calls && s.calls[p].Looked? && s.calls[p].id !in s.store.files && !Going(s, s.calls[p].id)
      && (s.calls[p].groupId.Some? && s.calls[p].group.Some? ==> s.calls[p].group.value.0 < |s.store.groups|)
    case Fail(p) =>
      && p in s.calls && s.calls[p].Removed? && s.calls[p].id !in s.store.files && Lists(s.store.rows, s.calls[p].id)
      && !(exists q :: q in s.calls && q != p && s.calls[q] == s.calls[p])
    case _ => false
  }

  /** Every deletion under way in `s` still is in `s'`. */
  lemma GoingStays(s: State, s': State, id: string)
    requires forall p :: p in s.calls && s.calls[p].Removed? ==> p in s'.calls && s'.calls[p] == s.calls[p]
    ensures Going(s, id) ==> Going(s', id)
  {
    if Going(s, id) {
      var p :| p in s.calls && s.calls[p] == Removed(id);
      assert s'.calls[p] == Removed(id);
    }
  }

  lemma SaveCovers(v: Service, s: State, p: nat, u: Upload, groupId: Option<string>, saving: Saving)
    requires NoneBare(s) && p !in s.calls
    ensures NoneBare(DoSave(v, s, p, u, groupId, saving))
  {
    var s' := DoSave(v, s, p, u, groupId, saving);
    forall x | x in s'.store.rows && x.live ensures x.fileId in s'.store.files || Going(s', x.fileId) {
      GoingStays(s, s', x.fileId);
    }
  }

  lemma LookCovers(s: State, p: nat)
    requires NoneBare(s) && p in s.calls && s.calls[p].Stored?
    ensures NoneBare(DoLook(s, p))
  {
    var s' := DoLook(s, p);
    forall x | x in s'.store.rows && x.live ensures x.fileId in s'.store.files || Going(s', x.fileId) {
      GoingStays(s, s', x.fileId);
    }
  }

  lemma InsertCoversIff(v: Service, s: State, p: nat, now: int)
    requires NoneBare(s) && p in s.calls && s.calls[p].Looked?
    ensures NoneBare(Apply(v, s, Insert(p, now))) <==> !Bares(s, Insert(p, now))
  {
    var s', c := Apply(v, s, Insert(p, now)), s.calls[p];
    forall id ensures Going(s', id) <==> Going(s, id) {
      GoingStays(s, s', id);
      GoingStays(s', s, id);
    }
    if s'.store.rows != s.store.rows {
      var x := s'.store.rows[|s.store.rows|];
      assert s'.store.rows == s.store.rows + [x] && x in s'.store.rows && x.live && x.fileId == c.id;
      assert s'.store.files == s.store.files;
      hide Going;
      if !Bares(s, Insert(p, now)) {
        forall y | y in s'.store.rows && y.live ensures y.fileId in s'.store.files || Going(s', y.fileId) {
          if y != x { assert y in s.store.rows; }
        }
      }
    }
  }

  lemma RemoveCovers(v: Service, s: State, p: nat, id: string)
    requires NoneBare(s) && p !in s.calls && id != ""
    ensures NoneBare(Apply(v, s, Remove(p, id)))
  {
    var s' := Apply(v, s, Remove(p, id));
    assert p in s'.calls && s'.calls[p] == Removed(id);
    forall x | x in s'.store.rows && x.live ensures x.fileId in s'.store.files || Going(s', x.fileId) {
      GoingStays(s, s', x.fileId);
    }
  }

  lemma ForgetCovers(v: Service, s: State, p: nat)
    requires NoneBare(s) && p in s.calls && s.calls[p].Removed?
    ensures NoneBare(Apply(v, s, Forget(p)))
  {
    var s', id := Apply(v, s, Forget(p)), s.calls[p].id;
    forall x | x in s'.store.rows && x.live ensures x.fileId in s'.store.files || Going(s', x.fileId) {
      assert x in s.store.rows && x.fileId != id;
      if Going(s, x.fileId) {
        var q :| q in s.calls && s.calls[q] == Removed(x.fileId);
        assert q in s'.calls && s'.calls[q] == Removed(x.fileId);
      }
    }
  }

  lemma FailCoversIff(v: Service, s: State, p: nat)
    requires NoneBare(s) && p in s.calls
    ensures NoneBare(Apply(v, s, Fail(p))) <==> !Bares(s, Fail(p))
  {
    var s', c := Apply(v, s, Fail(p)), s.calls[p];
    forall id | !(c == Removed(id)) ensures Going(s, id) ==> Going(s', id) {
      if Going(s, id) {
        var q :| q in s.calls && s.calls[q] == Removed(id);
        assert q in s'.calls && s'.calls[q] == Removed(id);
      }
    }
    if c.Removed? {
      assert Going(s', c.id) <==> exists q :: q in s.calls && q != p && s.calls[q] == c by {
        if q :| q in s.calls && q != p && s.calls[q] == c { assert q in s'.calls && s'.calls[q] == Removed(c.id); }
      }
      if Lists(s.store.rows, c.id) { var x :| x in s.store.rows && x.live && x.fileId == c.id; }
    }
  }

  /** The exact condition, checkable before the step: coverage survives every step but one that inserts a row
      for a file that is gone, or gives up a deletion half way. */
  lemma StepCoversIff(v: Service, s: State, e: Step)
    requires NoneBare(s)
    ensures NoneBare(Apply(v, s, e)) <==> !Bares(s, e)
  {
    hide NoneBare;
    match e
    case Save(p, u, groupId, saving) => if p !in s.calls { SaveCovers(v, s, p, u, groupId, saving); }
    case Look(p) => if p in s.calls && s.calls[p].Stored? { LookCovers(s, p); }
    case Insert(p, now) => if p in s.calls && s.calls[p].Looked? { InsertCoversIff(v, s, p, now); }
    case Remove(p, id) => if p !in s.calls && id != "" { RemoveCovers(v, s, p, id); }
    case Forget(p) => if p in s.calls && s.calls[p].Removed? { ForgetCovers(v, s, p); }
    case Fail(p) => if p in s.calls { FailCoversIff(v, s, p); } else { assert s.calls - {p} == s.calls; }
  }

  /** Over every run of interleaved calls: no live row ever lacks its file, but for a deletion under way,
      exactly when no step of the run bares one. */
  lemma RunCoversIff(v: Service, steps: seq<Step>)
    ensures Throughout(v, steps, NoneBare) <==> Never(v, steps, Bares)
  {
    forall s, e | Sound(s) && NoneBare(s) ensures NoneBare(Apply(v, s, e)) <==> !Bares(s, e) {
      StepCoversIff(v, s, e);
    }
    hide Throughout, Never;
    ThroughoutIff(v, steps, NoneBare, Bares);
  }

  // ---- where that comes from ----

  /** An upload whose file was not removed since still has it. */
  ghost predicate UncutStored(s: State) {
    forall p :: p in s.calls && !s.calls[p].Removed? && !s.calls[p].cut ==> s.calls[p].id in s.store.files
  }

  lemma StepUncut(v: Service, s: State, e: Step)
    requires UncutStored(s)
    ensures UncutStored(Apply(v, s, e))
  {
  }

  lemma {:induction false} RunUncut(v: Service, steps: seq<Step>)
    ensures UncutStored(Run(v, steps))
    decreases |steps|
  {
    if steps == [] {
    } else {
      RunUncut(v, steps[..|steps| - 1]);
      StepUncut(v, Run(v, steps[..|steps| - 1]), steps[|steps| - 1]);
    }
  }

  /** No upload goes on to insert after a deletion removed its file, and no deletion is given up. */
  ghost predicate Apart(s: State, e: Step) {
    match e
    case Insert(p, _) => p in s.calls && s.calls[p].Looked? ==> !s.calls[p].cut
    case Fail(p) => p in s.calls ==> !s.calls[p].Removed?
    case _ => true
  }

  /** Runs in which no deletion comes between the store and the insert step of an upload of the same file
      keep coverage throughout, so whole operations one after the other do. */
  lemma ApartCovers(v: Service, steps: seq<Step>)
    requires Never(v, steps, (s: State, e: Step) => !Apart(s, e))
    ensures Throughout(v, steps, NoneBare)
  {
    forall k | 0 <= k < |steps| ensures !Bares(Run(v, steps[..k]), steps[k]) {
      RunUncut(v, steps[..k]);
      assert Apart(Run(v, steps[..k]), steps[k]);
    }
    RunCoversIff(v, steps);
  }

  /** From every state with no call under way: an upload, with a deletion of the same file between its
      first two steps. Both succeed, and a live row is left without its file; the download fails. */
  lemma RacedUpload(v: Service, s: State, p: nat, q: nat, u: Upload, now: int)
    requires s.calls == map[] && p != q
    ensures var id := v.Id(u.bytes);
            var s1 := Apply(v, s, Save(p, u, None, Written));
            var s3 := Apply(v, Apply(v, s1, Remove(q, id)), Forget(q));
            var s5 := Apply(v, Apply(v, s3, Look(p)), Insert(p, now));
            && s5.calls == map[] && Lists(s5.store.rows, id) && id !in s5.store.files && !NoneBare(s5)
            && GetFile(s5.store, id) == None
  {
  }

  // ---- files without a row ----

  ghost predicate Uploading(s: State, id: string) {
    exists p :: p in s.calls && !s.calls[p].Removed? && s.calls[p].id == id
  }

  /** Every stored file has a live row or an upload under way. */
  ghost predicate NoneOrphan(s: State) {
    forall id :: id in s.store.files ==> Lists(s.store.rows, id) || Uploading(s, id)
  }

  /** The step tears a new file, forgets the rows of a file stored again, or gives up the upload of a file
      that nothing else needs. */
  ghost predicate Orphans(v: Service, s: State, e: Step) {
    match e
    case Save(p, u, _, saving) =>
      && p !in s.calls && saving.Torn? && v.Id(u.bytes) !in s.store.files
      && !Lists(s.store.rows, v.Id(u.bytes)) && !Uploading(s, v.Id(u.bytes))
    case Forget(p) => p in s.calls && s.calls[p].Removed? && s.calls[p].id in s.store.files && !Uploading(s, s.calls[p].id)
    case Fail(p) =>
      && p in s.calls && !s.calls[p].Removed? && s.calls[p].id in s.store.files && !Lists(s.store.rows, s.calls[p].id)
      && !(exists q :: q in s.calls && q != p && !s.calls[q].Removed? && s.calls[q].id == s.calls[p].id)
    case _ => false
  }

  lemma UploadingStays(s: State, s': State, id: string)
    requires forall p :: p in s.calls && !s.calls[p].Removed? && s.calls[p].id == id ==> p in s'.calls && !s'.calls[p].Removed? && s'.calls[p].id == id
    ensures Uploading(s, id) ==> Uploading(s', id)
  {
    if Uploading(s, id) {
      var p :| p in s.calls && !s.calls[p].Removed? && s.calls[p].id == id;
      assert p in s'.calls && !s'.calls[p].Removed? && s'.calls[p].id == id;
    }
  }

  lemma SaveOrphansIff(v: Service, s: State, e: Step)
    requires Sound(s) && NoneOrphan(s) && e.Save? && e.p !in s.calls
    ensures NoneOrphan(Apply(v, s, e)) <==> !Orphans(v, s, e)
  {
    var s', id := Apply(v, s, e), v.Id(e.u.bytes);
    assert id != "" && s'.store.rows == s.store.rows;
    forall other ensures Uploading(s, other) ==> Uploading(s', other) { UploadingStays(s, s', other); }
    forall other ensures Uploading(s', other) ==> Uploading(s, other) || (other == id && e.p in s'.calls) {
      if Uploading(s', other) {
        var p :| p in s'.calls && !s'.calls[p].Removed? && s'.calls[p].id == other;
        if p != e.p { assert p in s.calls && s.calls[p].id == other; }
      }
    }
    if e.p in s'.calls { assert !s'.calls[e.p].Removed? && s'.calls[e.p].id == id; }
    if Orphans(v, s, e) { assert id in s'.store.files && e.p !in s'.calls; }
    hide Uploading, Lists;
  }

  lemma LookKeeps(v: Service, s: State, p: nat)
    requires Sound(s) && NoneOrphan(s) && p in s.calls && s.calls[p].Stored?
    ensures NoneOrphan(DoLook(s, p))
  {
    var s', c := DoLook(s, p), s.calls[p];
    forall id | id in s'.store.files ensures Lists(s'.store.rows, id) || Uploading(s', id) {
      if p in s'.calls {
        UploadingStays(s, s', id);
      } else if id == c.id {
        assert Find(s.store.rows, id).Some?;
        assert Find(s.store.rows, id).value in s.store.rows;
      } else {
        UploadingStays(s, s', id);
      }
    }
  }

  lemma InsertKeeps(v: Service, s: State, p: nat, now: int)
    requires Sound(s) && NoneOrphan(s) && p in s.calls && s.calls[p].Looked?
    ensures NoneOrphan(Apply(v, s, Insert(p, now)))
  {
    var s', c := Apply(v, s, Insert(p, now)), s.calls[p];
    var x := s'.store.rows[|s.store.rows|];
    assert s'.store.rows == s.store.rows + [x] && x in s'.store.rows && x.live && x.fileId == c.id;
    assert forall y :: y in s.store.rows ==> y in s'.store.rows;
    assert Lists(s'.store.rows, c.id);
    forall id | id in s'.store.files ensures Lists(s'.store.rows, id) || Uploading(s', id) {
      if id != c.id {
        UploadingStays(s, s', id);
        if Lists(s.store.rows, id) { var y :| y in s.store.rows && y.live && y.fileId == id; }
      }
    }
  }

  lemma RemoveOrphans(v: Service, s: State, p: nat, id: string)
    requires Sound(s) && NoneOrphan(s) && p !in s.calls && id != ""
    ensures NoneOrphan(Apply(v, s, Remove(p, id)))
  {
    var s' := Apply(v, s, Remove(p, id));
    forall other | other in s'.store.files ensures Lists(s'.store.rows, other) || Uploading(s', other) {
      UploadingStays(s, s', other);
    }
  }

  lemma ForgetOrphansIff(v: Service, s: State, p: nat)
    requires Sound(s) && NoneOrphan(s) && p in s.calls && s.calls[p].Removed?
    ensures NoneOrphan(Apply(v, s, Forget(p))) <==> !Orphans(v, s, Forget(p))
  {
    var s', id := Apply(v, s, Forget(p)), s.calls[p].id;
    Forgotten(s.store.rows, id);
    forall other ensures Uploading(s', other) <==> Uploading(s, other) {
      UploadingStays(s, s', other);
      UploadingStays(s', s, other);
    }
    hide Uploading, Lists;
  }

  lemma FailOrphansIff(v: Service, s: State, p: nat)
    requires Sound(s) && NoneOrphan(s) && p in s.calls
    ensures NoneOrphan(Apply(v, s, Fail(p))) <==> !Orphans(v, s, Fail(p))
  {
    var s', c := Apply(v, s, Fail(p)), s.calls[p];
    forall id | c.Removed? || id != c.id ensures Uploading(s, id) ==> Uploading(s', id) { UploadingStays(s, s', id); }
    if !c.Removed? {
      assert Uploading(s', c.id) <==> exists q :: q in s.calls && q != p && !s.calls[q].Removed? && s.calls[q].id == c.id by {
        if q :| q in s.calls && q != p && !s.calls[q].Removed? && s.calls[q].id == c.id { assert q in s'.calls && s'.calls[q].id == c.id; }
        if Uploading(s', c.id) {
          var q :| q in s'.calls && !s'.calls[q].Removed? && s'.calls[q].id == c.id;
          assert q in s.calls && q != p && s.calls[q].id == c.id;
        }
      }
    }
    hide Lists;
  }

  /** The exact condition, checkable before the step, under which no stored file is left without a row. */
  lemma StepOrphansIff(v: Service, s: State, e: Step)
    requires Sound(s) && NoneOrphan(s)
    ensures NoneOrphan(Apply(v, s, e)) <==> !Orphans(v, s, e)
  {
    hide NoneOrphan, Sound;
    match e
    case Save(p, u, groupId, saving) => if p !in s.calls { SaveOrphansIff(v, s, e); }
    case Look(p) => if p in s.calls && s.calls[p].Stored? { LookKeeps(v, s, p); }
    case Insert(p, now) => if p in s.calls && s.calls[p].Looked? { InsertKeeps(v, s, p, now); }
    case Remove(p, id) => if p !in s.calls && id != "" { RemoveOrphans(v, s, p, id); }
    case Forget(p) => if p in s.calls && s.calls[p].Removed? { ForgetOrphansIff(v, s, p); }
    case Fail(p) => if p in s.calls { FailOrphansIff(v, s, p); } else { assert s.calls - {p} == s.calls; }
  }

  /** Over every run of interleaved calls: every stored file has a row or an upload under way throughout
      exactly when no step of the run leaves one without. */
  lemma RunOrphansIff(v: Service, steps: seq<Step>)
    ensures Throughout(v, steps, NoneOrphan) <==> Never(v, steps, (s: State, e: Step) => Orphans(v, s, e))
  {
    forall s, e | Sound(s) && NoneOrphan(s) ensures NoneOrphan(Apply(v, s, e)) <==> !Orphans(v, s, e) {
      StepOrphansIff(v, s, e);
    }
    hide Throughout, Never;
    ThroughoutIff(v, steps, NoneOrphan, (s: State, e: Step) => Orphans(v, s, e));
  }

  // ---- one group for an id ----

  ghost predicate OnePerId(groups: seq<LogGroup>) {
    forall i, j :: 0 <= i < j < |groups| && groups[i].live && groups[j].live ==> groups[i].groupId != groups[j].groupId
  }

  /** The step creates a group for an id that has got one since it was looked up. */
  ghost predicate Twins(s: State, e: Step) {
    && e.Insert? && e.p in s.calls && s.calls[e.p].Looked? && s.calls[e.p].groupId.Some? && s.calls[e.p].group.None?
    && FindGroup(s.store.groups, s.calls[e.p].groupId.value).Some?
  }

  /** The exact condition, checkable before the step, under which an id keeps one live group. */
  lemma StepTwinsIff(v: Service, s: State, e: Step)
    requires OnePerId(s.store.groups)
    ensures OnePerId(Apply(v, s, e).store.groups) <==> !Twins(s, e)
  {
    var gs, gs' := s.store.groups, Apply(v, s, e).store.groups;
    if Twins(s, e) {
      var g := FindGroup(gs, s.calls[e.p].groupId.value).value;
      assert gs'[g] == gs[g] && gs'[|gs|].groupId == gs[g].groupId && gs'[|gs|].live;
    } else {
      assert forall i :: 0 <= i < |gs| ==> gs'[i].live == gs[i].live && gs'[i].groupId == gs[i].groupId;
      if |gs'| > |gs| {
        assert forall i :: 0 <= i < |gs| ==> gs[i] in gs;
      }
    }
  }

  // ---- the size of a group ----

  /** The step writes a size that was read before another upload into the group, or leaves a deleted group's
      size as it is. */
  ghost predicate Stale(s: State, e: Step) {
    e.Insert? && e.p in s.calls && s.calls[e.p].Looked? && s.calls[e.p].group.Some?
    && var (g, size) := s.calls[e.p].group.value;
    && g < |s.store.groups|
    && if s.store.groups[g].live then size != s.store.groups[g].size else s.calls[e.p].u.size != 0
  }

  /** The exact condition, checkable before the step, under which group sizes stay the sums of all uploads. */
  lemma StepBalancedIff(v: Service, s: State, e: Step)
    requires Sound(s) && Balanced(s.store)
    ensures Balanced(Apply(v, s, e).store) <==> !Stale(s, e)
  {
    match e
    case Insert(p, now) => if p in s.calls && s.calls[p].Looked? { InsertBalancedIff(v, s, p, now); }
    case Forget(p) =>
      if p in s.calls && s.calls[p].Removed? {
        ForgetFades(s.store.rows, s.calls[p].id);
        FadedBalanced(s.store, Apply(v, s, e).store);
      }
    case _ => assert Apply(v, s, e).store.rows == s.store.rows && Apply(v, s, e).store.groups == s.store.groups;
  }

  lemma InsertBalancedIff(v: Service, s: State, p: nat, now: int)
    requires Sound(s) && Balanced(s.store) && p in s.calls && s.calls[p].Looked?
    ensures Balanced(Apply(v, s, Insert(p, now)).store) <==> !Stale(s, Insert(p, now))
  {
    var t, t', c := s.store, Apply(v, s, Insert(p, now)).store, s.calls[p];
    var x := t'.rows[|t.rows|];
    assert t'.rows == t.rows + [x];
    forall g | 0 <= g < |t.groups| ensures GroupSum(t'.rows, g, false) == t.groups[g].size + if x.group == Some(g) then x.size else 0 {
      SumSnoc(t.rows, x, g);
    }
    if Stale(s, Insert(p, now)) {
      var g := c.group.value.0;
      assert t'.groups[g].size != GroupSum(t'.rows, g, false);
    } else {
      AppendBalanced(t, t', x);
    }
  }

  /** Over every run of interleaved calls: all group sizes are the sums of all uploads throughout exactly when
      no step of the run writes a stale size. */
  lemma RunBalancedIff(v: Service, steps: seq<Step>)
    ensures Throughout(v, steps, (s: State) => Balanced(s.store)) <==> Never(v, steps, Stale)
  {
    forall s, e | Sound(s) && Balanced(s.store) ensures Balanced(Apply(v, s, e).store) <==> !Stale(s, e) {
      StepBalancedIff(v, s, e);
    }
    hide Throughout, Never;
    ThroughoutIff(v, steps, (s: State) => Balanced(s.store), Stale);
  }

  /** Two uploads into one group that both read its size before either inserts: the first one's size is lost. */
  lemma LostSize(v: Service, s: State, p: nat, q: nat, g: nat, a: int, b: int)
    requires Sound(s) && Balanced(s.store) && p in s.calls && q in s.calls && p != q && s.calls[p].Stored? && s.calls[q].Stored?
    requires s.calls[p].groupId.Some? && s.calls[q].groupId == s.calls[p].groupId
    requires FindGroup(s.store.groups, s.calls[p].groupId.value) == Some(g)
    ensures var s2 := Apply(v, Apply(v, s, Look(p)), Look(q));
            var s4 := Apply(v, Apply(v, s2, Insert(p, a)), Insert(q, b));
            && g < |s4.store.groups| && GroupSum(s4.store.rows, g, false) == s4.store.groups[g].size + s.calls[p].u.size
  {
    var s1 := Apply(v, s, Look(p));
    var s2 := Apply(v, s1, Look(q));
    var s3 := Apply(v, s2, Insert(p, a));
    var s4 := Apply(v, s3, Insert(q, b));
    assert s3.store.rows == s.store.rows + [s3.store.rows[|s.store.rows|]];
    SumSnoc(s.store.rows, s3.store.rows[|s.store.rows|], g);
    assert s4.store.rows == s3.store.rows + [s4.store.rows[|s3.store.rows|]];
    SumSnoc(s3.store.rows, s4.store.rows[|s3.store.rows|], g);
  }

  // ---- downloads ----

  ghost predicate IntactFiles(v: Service, s: State) {
    forall id :: id in s.store.files ==> id == v.Id(s.store.files[id])
  }

  lemma {:induction false} RunIntactFiles(v: Service, steps: seq<Step>)
    requires forall e :: e in steps && e.Save? ==> !e.saving.Torn?
    ensures IntactFiles(v, Run(v, steps))
    decreases |steps|
  {
    if steps == [] {
    } else {
      var n := |steps| - 1;
      assert steps[n] in steps && forall e :: e in steps[..n] ==> e in steps;
      RunIntactFiles(v, steps[..n]);
      StepIntactFiles(v, Run(v, steps[..n]), steps[n]);
    }
  }

  lemma StepIntactFiles(v: Service, s: State, e: Step)
    requires IntactFiles(v, s) && (e.Save? ==> !e.saving.Torn?)
    ensures IntactFiles(v, Apply(v, s, e))
  {
  }

  /** In a run of interleaved calls whose writes do not tear and of which no step bares a row, an upload
      downloads with its own bytes exactly as long as a live row of its file is left, while no deletion of it
      is under way. */
  lemma RacedDownloads(v: Service, steps: seq<Step>, bytes: Bytes)
    requires v.CollisionFree() && forall e :: e in steps && e.Save? ==> !e.saving.Torn?
    requires Never(v, steps, Bares)
    requires !Going(Run(v, steps), v.Id(bytes))
    ensures var r := GetFile(Run(v, steps).store, v.Id(bytes));
            Lists(Run(v, steps).store.rows, v.Id(bytes)) <==> r.Some? && r.value.1 == bytes
  {
    var s, id := Run(v, steps), v.Id(bytes);
    RunCoversIff(v, steps);
    assert steps[..|steps|] == steps;
    RunSound(v, steps);
    RunIntactFiles(v, steps);
    hide Run;
    if Lists(s.store.rows, id) {
      ListedFound(s.store, id);
      var x :| x in s.store.rows && x.live && x.fileId == id;
      Same(v, s.store.files[id], bytes);
    }
  }
}

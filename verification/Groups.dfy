/** Log groups. */
module Groups {
  import opened Messages
  import opened Tables
  import opened LogStore
  import opened Retention
  import opened Agreement

  // The size a group records, and what deleting a group leaves behind.

  /** The sizes of all rows ever uploaded into group `g`; with `onlyLive`, of those still live. */
  function GroupSum(rows: seq<Row>, g: nat, onlyLive: bool): nat {
    if rows == [] then 0
    else
      var x := rows[|rows| - 1];
      GroupSum(rows[..|rows| - 1], g, onlyLive) + if x.group == Some(g) && (onlyLive ==> x.live) then x.size else 0
  }

  ghost predicate Balanced(s: Store) {
    forall g :: 0 <= g < |s.groups| ==> s.groups[g].size == GroupSum(s.rows, g, false)
  }

  lemma {:induction false} FadedSum(was: seq<Row>, now: seq<Row>, g: nat)
    requires Faded(was, now)
    ensures GroupSum(now, g, false) == GroupSum(was, g, false)
  {
    if was == [] {
    } else {
      FadedPrefix(was, now);
      FadedSum(was[..|was| - 1], now[..|now| - 1], g);
    }
  }

  lemma {:induction false} LiveSum(rows: seq<Row>, g: nat)
    ensures GroupSum(rows, g, true) <= GroupSum(rows, g, false)
  {
    if rows == [] {
    } else {
      LiveSum(rows[..|rows| - 1], g);
    }
  }

  lemma SumSnoc(rows: seq<Row>, x: Row, g: nat)
    ensures GroupSum(rows + [x], g, false) == GroupSum(rows, g, false) + if x.group == Some(g) then x.size else 0
  {
    assert (rows + [x])[..|rows|] == rows;
  }

  lemma {:induction false} NoSum(rows: seq<Row>, g: nat)
    requires forall x :: x in rows ==> x.group != Some(g)
    ensures GroupSum(rows, g, false) == 0
  {
    if rows == [] {
    } else {
      NoSum(rows[..|rows| - 1], g);
    }
  }

  lemma FadedBalanced(s: Store, s': Store)
    requires Balanced(s) && Faded(s.rows, s'.rows) && |s'.groups| == |s.groups|
    requires forall g :: 0 <= g < |s.groups| ==> s'.groups[g].size == s.groups[g].size
    ensures Balanced(s')
  {
    forall g | 0 <= g < |s'.groups| ensures s'.groups[g].size == GroupSum(s'.rows, g, false) {
      FadedSum(s.rows, s'.rows, g);
    }
  }

  lemma AppendBalanced(s: Store, s': Store, x: Row)
    requires Sane(s) && Balanced(s) && s'.rows == s.rows + [x]
    requires |s.groups| <= |s'.groups| <= |s.groups| + 1
    requires |s'.groups| > |s.groups| ==> x.group == Some(|s.groups|) && s'.groups[|s.groups|].size == x.size
    requires forall g :: 0 <= g < |s.groups| ==> s'.groups[g].size == s.groups[g].size + if x.group == Some(g) then x.size else 0
    ensures Balanced(s')
  {
    forall g | 0 <= g < |s'.groups| ensures s'.groups[g].size == GroupSum(s'.rows, g, false) {
      SumSnoc(s.rows, x, g);
      if g == |s.groups| { NoSum(s.rows, g); }
    }
  }

  lemma StepBalanced(v: Service, s: Store, op: Op)
    requires Sane(s) && Balanced(s)
    ensures Balanced(Apply(v, s, op))
  {
    var s' := Apply(v, s, op);
    if Possible(v, s, op) {
      match op
      case Put(u, now, f) =>
        if s'.rows != s.rows { AppendBalanced(s, s', s'.rows[|s.rows|]); }
      case PutGroup(groupId, u, now, f) =>
        if s'.rows != s.rows { AppendBalanced(s, s', s'.rows[|s.rows|]); }
      case Delete(fileId, outcome) =>
        DeleteTrims(s, fileId, outcome);
        FadedBalanced(s, s');
      case DropGroup(groupId, logs, faults, lf, df) =>
        DropTrims(s, groupId, logs, faults, lf, df);
        FadedBalanced(s, s');
      case Clean(before, c) =>
        CleanTrims(s, v.max, before, c);
        FadedBalanced(s, s');
    }
  }

  /** In every run, whatever fails, a group's recorded size is the sum of all files uploaded into it,
      deleted since or not, so it is never below the sum of its live rows. */
  lemma {:induction false} GroupAccounting(v: Service, ops: seq<Op>)
    ensures Balanced(Run(v, ops))
    ensures forall g :: 0 <= g < |Run(v, ops).groups| ==>
              GroupSum(Run(v, ops).rows, g, true) <= Run(v, ops).groups[g].size
    decreases |ops|
  {
    if ops == [] {
    } else {
      var n := |ops| - 1;
      GroupAccounting(v, ops[..n]);
      StoreAgreement(v, ops[..n]);
      StepBalanced(v, Run(v, ops[..n]), ops[n]);
    }
    forall g | 0 <= g < |Run(v, ops).groups|
      ensures GroupSum(Run(v, ops).rows, g, true) <= Run(v, ops).groups[g].size
    {
      LiveSum(Run(v, ops).rows, g);
    }
  }

  // ---- deleting a group ----

  lemma {:induction false} DeleteAllClears(s: Store, logs: seq<Row>, i: nat, faults: seq<Deletion>, l: Row)
    requires Sane(s) && i <= |logs| && forall x :: x in logs ==> x.fileId != ""
    requires DeleteAll(s, logs, i, faults).1 && l in logs[i..]
    ensures var s' := DeleteAll(s, logs, i, faults).0; !Lists(s'.rows, l.fileId) && l.fileId !in s'.files
    decreases |logs| - i
  {
    var s1 := DeleteFile(s, logs[i].fileId, At(faults, i)).0;
    var s' := DeleteAll(s1, logs, i + 1, faults).0;
    DeleteTrims(s, logs[i].fileId, At(faults, i));
    DeleteAllTrims(s1, logs, i + 1, faults);
    if l == logs[i] {
      Forgotten(s.rows, l.fileId);
      if Lists(s'.rows, l.fileId) { WasListed(s1.rows, s'.rows, l.fileId); }
    } else {
      DeleteAllClears(s1, logs, i + 1, faults, l);
    }
  }

  /** A DeleteLogGroup that succeeds leaves no live row and no file of any log it listed, even one
      another group shares, leaves the group itself deleted, and no live row lacks its file. */
  lemma DeleteGroupClears(s: Store, groupId: string, logs: seq<Row>, faults: seq<Deletion>, lookupFails: bool, deleteFails: bool)
    requires Sane(s) && FindGroup(s.groups, groupId).Some?
    requires GroupLogs(s.rows, FindGroup(s.groups, groupId).value, logs)
    requires DeleteGroup(s, groupId, logs, faults, lookupFails, deleteFails).1
    ensures var s' := DeleteGroup(s, groupId, logs, faults, lookupFails, deleteFails).0;
            && (forall l :: l in logs ==> !Lists(s'.rows, l.fileId) && l.fileId !in s'.files)
            && (forall x :: x in s'.rows && x.live ==> x.group != FindGroup(s.groups, groupId))
            && |s'.groups| == |s.groups| && !s'.groups[FindGroup(s.groups, groupId).value].live
            && (Covered(s) ==> Covered(s'))
  {
    var s' := DeleteGroup(s, groupId, logs, faults, lookupFails, deleteFails).0;
    forall l | l in logs ensures !Lists(s'.rows, l.fileId) && l.fileId !in s'.files {
      DeleteAllClears(s, logs, 0, faults, l);
    }
    DeleteAllTrims(s, logs, 0, faults);
    forall x | x in s'.rows && x.live ensures x.group != FindGroup(s.groups, groupId) {
      var i :| 0 <= i < |s'.rows| && s'.rows[i] == x;
      assert s.rows[i] in s.rows && s.rows[i] == x && Lists(s'.rows, x.fileId);
    }
    AllDone(s, logs, 0, faults);
  }

  /** A loop of deletions that succeeds met no failure, so it keeps coverage. */
  lemma {:induction false} AllDone(s: Store, logs: seq<Row>, i: nat, faults: seq<Deletion>)
    requires Sane(s) && i <= |logs| && DeleteAll(s, logs, i, faults).1
    ensures Covered(s) ==> Covered(DeleteAll(s, logs, i, faults).0)
    decreases |logs| - i
  {
    if i == |logs| {
    } else {
      DeleteTrims(s, logs[i].fileId, At(faults, i));
      AllDone(DeleteFile(s, logs[i].fileId, At(faults, i)).0, logs, i + 1, faults);
    }
  }
}

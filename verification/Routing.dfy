/** File ids lead back to the machine that stored the file. */
module Routing {
  import opened Messages
  import opened Tables
  import opened LogStore
  import opened Agreement
  import opened Addressing

  /** How a request for a file finds its machine. */
  function GetMachineIdByFileName(name: string): Option<string> {
    var names := Split(name);
    if |names| != 2 then None else Some(names[0])
  }

  /** `v` is the log service of machine `s` among the configured machines, and no digest has a dot. */
  ghost predicate ServiceOf(v: Service, machines: seq<Machine>, s: Machine) {
    && KeysIdentify(machines) && s in machines && v.machine == SelfMachineId(machines, s)
    && forall bytes :: '.' !in v.md5(bytes)
  }

  /** The id an upload gets names the machine it is stored on, on every node of the cluster, in whatever
      order that node lists the machines; and the node that finds itself named is that machine. */
  lemma FileRoutesBack(a: seq<Machine>, b: seq<Machine>, s: Machine, t: Machine, v: Service, bytes: Bytes)
    requires multiset(a) == multiset(b) && ServiceOf(v, a, s) && t in b
    ensures Split(v.Id(bytes)) == [v.machine, v.md5(bytes)] && GetMachineIdByFileName(v.Id(bytes)) == Some(v.machine)
    ensures v.machine in MachineInfo(b) && MachineInfo(b)[v.machine] == s
    ensures v.machine == SelfMachineId(b, t) <==> s == t
  {
    ClusterAgreement(a, b, s, t);
    SplitAt(v.machine, v.md5(bytes));
    SplitPlain(v.md5(bytes));
  }

  // ---- over runs ----

  /** The id of some contents. */
  ghost predicate Issued(v: Service, id: string) {
    exists bytes :: v.Id(bytes) == id
  }

  ghost predicate AllIssued(v: Service, s: Store) {
    && (forall id :: id in s.files ==> Issued(v, id))
    && (forall x :: x in s.rows ==> Issued(v, x.fileId))
  }

  lemma FadedIssued(v: Service, s: Store, s': Store)
    requires AllIssued(v, s) && Faded(s.rows, s'.rows) && forall id :: id in s'.files ==> id in s.files
    ensures AllIssued(v, s')
  {
    forall x | x in s'.rows ensures Issued(v, x.fileId) {
      var i :| 0 <= i < |s'.rows| && s'.rows[i] == x;
      assert s.rows[i] in s.rows && s.rows[i].fileId == x.fileId;
    }
  }

  lemma StepIssued(v: Service, s: Store, op: Op)
    requires Sane(s) && AllIssued(v, s)
    ensures AllIssued(v, Apply(v, s, op))
  {
    hide Sane;
    var s' := Apply(v, s, op);
    if Possible(v, s, op) {
      match op
      case Put(u, now, f) => assert Issued(v, v.Id(u.bytes));
      case PutGroup(groupId, u, now, f) => assert Issued(v, v.Id(u.bytes));
      case Delete(fileId, outcome) =>
        DeleteTrims(s, fileId, outcome);
        FadedIssued(v, s, s');
      case DropGroup(groupId, logs, faults, lf, df) =>
        DropTrims(s, groupId, logs, faults, lf, df);
        FadedIssued(v, s, s');
      case Clean(before, c) =>
        CleanTrims(s, v.max, before, c);
        FadedIssued(v, s, s');
    }
  }

  lemma {:induction false} RunIssued(v: Service, ops: seq<Op>)
    ensures AllIssued(v, Run(v, ops))
    decreases |ops|
  {
    if ops == [] {
    } else {
      var n := |ops| - 1;
      RunIssued(v, ops[..n]);
      StoreAgreement(v, ops[..n]);
      StepIssued(v, Run(v, ops[..n]), ops[n]);
    }
  }

  /** In every run, whatever fails, the id of every stored file and of every row leads every node to the
      machine that stored it; and as long as no database failure comes inside a deletion, that machine
      serves the file of every live row. */
  lemma StoredRoutesBack(a: seq<Machine>, b: seq<Machine>, s: Machine, t: Machine, v: Service, ops: seq<Op>, id: string)
    requires multiset(a) == multiset(b) && ServiceOf(v, a, s) && t in b
    requires id in Run(v, ops).files || exists x :: x in Run(v, ops).rows && x.fileId == id
    ensures GetMachineIdByFileName(id) == Some(v.machine)
    ensures v.machine in MachineInfo(b) && MachineInfo(b)[v.machine] == s
    ensures v.machine == SelfMachineId(b, t) <==> s == t
    ensures (forall op :: op in ops ==> RowsFollow(op)) && Lists(Run(v, ops).rows, id) ==>
              GetFile(Run(v, ops), id).Some? && GetFile(Run(v, ops), id).value.1 == Run(v, ops).files[id]
  {
    RunIssued(v, ops);
    StoreAgreement(v, ops);
    hide Run, MachineInfo, SelfMachineId, GetMachineIdByFileName;
    var bytes :| v.Id(bytes) == id;
    FileRoutesBack(a, b, s, t, v, bytes);
  }
}
